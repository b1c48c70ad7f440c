/**
 * Deletion as a terminating protocol: exactly when a platform gains another child, and a measure
 * over its children, their finalizers and what a run in flight may still add, which no step of a
 * deletion increases and every productive one decreases.
 */
module Draining {
  import opened Api
  import opened Names
  import opened Admission
  import opened ApiServer
  import opened Features
  import opened Protocol
  import opened Safety
  import opened Readiness
  import opened Deletion
  import opened Provenance
  import opened Immutability
  import opened Turns
  import opened FreshStart
  import opened Liveness
  import PL = PlatformLiveness
  import P = PlatformRun
  import S = SaiaRun

  // ---- growth ----------------------------------------------------------------------------------------

  lemma {:induction false} UpsertsTouchDesired(s: Store, name: string, p: Platform, fs: seq<Feature>, failing: set<Call>, n: string)
    requires n !in DesiredNames(name, fs)
    ensures SameAt(s, UpsertAll(s, name, p, fs, failing).0, n)
    decreases |fs|
  {
    hide UpdateService, CreateService, BuildService, ChildName, DesiredNames, Desired;
    if fs != [] {
      var child := ChildName(name, fs[0].name);
      DesiredNamesCons(name, fs);
      if child in s.services {
        UpdateTouchesOneKey(s, child, Desired(s.services[child], s.ns, name, p, fs[0]), n);
      } else {
        CreateTouchesOneKey(s, child, NewChildMeta(name, fs[0]), BuildService(name, s.ns, p, fs[0]), n);
      }
      UpsertsTouchDesired(Upsert(s, name, p, fs[0], failing).0, name, p, fs[1..], failing, n);
    }
  }

  /** A platform's own feature stage adds desired children only. */
  lemma FeaturesOwnDesired(s: Store, name: string, p: Platform, failing: set<Call>, reached: set<string>, n: string)
    requires n in Owned(ReconcileFeatures(s, name, p, failing, reached).0, name) && n !in Owned(s, name)
    ensures n in DesiredNames(name, p.spec.features)
  {
    hide UpsertAll, DeleteServices, DesiredNames;
    var s1 := UpsertAll(s, name, p, p.spec.features, failing).0;
    var doomed := Owned(s1, name) - DesiredNames(name, p.spec.features);
    var blocked := set k | k in doomed && DeleteChild(k) in failing;
    DeleteKeepsOwners(s1, doomed, name);
    DeleteKeepsOwners(s1, (doomed - blocked) * reached, name);
    if n !in DesiredNames(name, p.spec.features) {
      UpsertsTouchDesired(s, name, p, p.spec.features, failing, n);
    }
  }

  lemma PlatformGrowth(st: State, step: Step, name: string, n: string)
    requires step.PlatformFetch? || step.PlatformStage? || step.PlatformPublish?
    requires n in Owned(PlatformNext(st, step).store, name) && n !in Owned(st.store, name)
    ensures WritesChildren(st, step, name) && n in DesiredNames(name, st.platformRun.value.p.spec.features)
  {
    hide ReconcileFeatures, P.ValidatePlatform, P.ReconcileWeaviate, DeleteServices, UpdatePlatform, RemoveAll, DesiredNames, PublishPlatform;
    var s := st.store;
    if step.PlatformStage? && st.platformRun.Some? && !P.Stopped(st.platformRun.value) {
      var r := st.platformRun.value;
      WeaviateFrame(s, r.name, r.p, step.pw);
      if r.next == 9 {
        if r.name == name {
          FeaturesOwnDesired(s, name, r.p, step.pw.failing, step.pw.reached, n);
        } else {
          OtherFeaturesKeepOwners(s, r.name, r.p, step.pw.failing, step.pw.reached, name);
        }
      }
    } else if step.PlatformFetch? && step.name in s.platforms {
      var p := s.platforms[step.name];
      DeleteKeepsOwners(s, (set k | k in Owned(s, step.name) && DeleteChild(k) !in step.failing), name);
      UpdatePlatformServices(s, step.name,
        p.(meta := p.meta.(finalizers := RemoveAll(p.meta.finalizers, FINALIZER_PLATFORM))), st.quantities);
    } else if step.PlatformPublish? && st.platformRun.Some? {
      var r := st.platformRun.value;
      PublishFrame(s, r.name, P.PublishedStatus(r), step.lands);
    }
  }

  /**
   * For every platform and every step, deletion or not: an AIService newly owned by it was created
   * by a user who named the platform as controller, or was written by the AIService stage of a run
   * of this platform, under one of its desired names.
   */
  lemma OwnedNeverGrows(st: State, step: Step, name: string, n: string)
    requires Inv(st) && n in Owned(Next(st, step).store, name) && n !in Owned(st.store, name)
    ensures || (step.UserCreateService? && step.name == n && step.meta.controller == Some(PlatformOwner(name)))
            || (WritesChildren(st, step, name) && n in DesiredNames(name, st.platformRun.value.p.spec.features))
  {
    hide EnvironmentStore, PlatformNext, ServiceNext, StoreSound, PlatformRunSound, ServiceRunSound, WritesChildren, DesiredNames;
    if step.PlatformFetch? || step.PlatformStage? || step.PlatformPublish? {
      PlatformGrowth(st, step, name, n);
    } else if step.ServiceFetch? || step.ServiceStage? || step.ServicePublish? || step.ServiceStatusWrite? {
      ServiceNeverGrows(st, step, name);
    } else if step.UserCreateService? && step.meta.controller == Some(PlatformOwner(name)) {
      if n != step.name {
        CreatedAlone(st.store, step, st.quantities, n);
      }
    } else {
      EnvironmentNeverGrows(st.store, step, name, st.quantities);
    }
  }

  lemma CreatedAlone(s: Store, step: Step, quantities: iset<string>, n: string)
    requires step.UserCreateService? && n != step.name
    ensures SameAt(s, EnvironmentStore(s, step, quantities), n)
  {
    hide CreateService;
    CreateTouchesOneKey(s, step.name, step.meta, step.service, n);
  }

  // ---- exactly when a child is gained ---------------------------------------------------------------

  /** The upsert loop gets as far as a feature that wants n: nothing refuses it or any feature before it. */
  predicate Reaches(s: Store, name: string, p: Platform, fs: seq<Feature>, failing: set<Call>, n: string) {
    exists i :: 0 <= i < |fs| && ChildName(name, fs[i].name) == n
                && forall j :: 0 <= j <= i ==> Accepted(s, name, p, fs[j], failing) && Matches(s, name, p, fs[j])
  }

  lemma UpsertOwns(s: Store, name: string, p: Platform, f: Feature, failing: set<Call>, n: string)
    requires Admitted(s) && NoZombies(s) && Upsert(s, name, p, f, failing).1.Ok?
    ensures n in Owned(Upsert(s, name, p, f, failing).0, name) <==> n in Owned(s, name) || n == ChildName(name, f.name)
  {
    UpsertWrites(s, name, p, f, failing);
    UpsertValueConverges(s, name, p, f);
    hide Upsert, UpsertValue, ChildWritten, Carried, NewBorn, DefaultService, BuildService, ChildName;
  }

  /** One more feature in front, seen from the store before and after its upsert. */
  lemma ReachesStep(s: Store, name: string, p: Platform, fs: seq<Feature>, failing: set<Call>, n: string)
    requires fs != [] && Admitted(s) && NoZombies(s)
    ensures var (s1, o) := Upsert(s, name, p, fs[0], failing);
            Reaches(s, name, p, fs, failing, n) <==>
              o.Ok? && (n == ChildName(name, fs[0].name) || Reaches(s1, name, p, fs[1..], failing, n))
  {
    hide Upsert, Accepted, Matches, Admitted, NoZombies, ChildName;
    UpsertSucceedsIff(s, name, p, fs[0], failing);
    var (s1, o) := Upsert(s, name, p, fs[0], failing);
    if o.Ok? {
      var rest := fs[1..];
      forall j | 0 <= j < |rest|
        ensures rest[j] == fs[j + 1]
        ensures Accepted(s1, name, p, rest[j], failing) && Matches(s1, name, p, rest[j])
            <==> Accepted(s, name, p, fs[j + 1], failing) && Matches(s, name, p, fs[j + 1])
      {
        UpsertLeavesOthers(s, name, p, fs[0], fs[j + 1], failing);
      }
      ReachesTail(s, s1, name, p, fs, failing, n);
    } else {
      ReachesFirst(s, name, p, fs, failing, n);
    }
  }

  lemma ReachesFirst(s: Store, name: string, p: Platform, fs: seq<Feature>, failing: set<Call>, n: string)
    ensures Reaches(s, name, p, fs, failing, n) ==> fs != [] && Accepted(s, name, p, fs[0], failing) && Matches(s, name, p, fs[0])
  {
    hide Accepted, Matches, ChildName;
  }

  lemma ReachesTail(s: Store, s1: Store, name: string, p: Platform, fs: seq<Feature>, failing: set<Call>, n: string)
    requires fs != [] && Accepted(s, name, p, fs[0], failing) && Matches(s, name, p, fs[0])
    requires forall j :: 0 <= j < |fs| - 1 ==>
               (Accepted(s1, name, p, fs[1..][j], failing) && Matches(s1, name, p, fs[1..][j])
                <==> Accepted(s, name, p, fs[j + 1], failing) && Matches(s, name, p, fs[j + 1]))
    ensures Reaches(s, name, p, fs, failing, n) <==>
              n == ChildName(name, fs[0].name) || Reaches(s1, name, p, fs[1..], failing, n)
  {
    hide Accepted, Matches, ChildName;
    var rest := fs[1..];
    if i :| 0 <= i < |fs| && ChildName(name, fs[i].name) == n
            && forall j :: 0 <= j <= i ==> Accepted(s, name, p, fs[j], failing) && Matches(s, name, p, fs[j]) {
      if i > 0 {
        assert ChildName(name, rest[i - 1].name) == n;
        forall j | 0 <= j <= i - 1 ensures Accepted(s1, name, p, rest[j], failing) && Matches(s1, name, p, rest[j]) {
          assert Accepted(s, name, p, fs[j + 1], failing);
        }
      }
    }
    if i :| 0 <= i < |rest| && ChildName(name, rest[i].name) == n
            && forall j :: 0 <= j <= i ==> Accepted(s1, name, p, rest[j], failing) && Matches(s1, name, p, rest[j]) {
      assert ChildName(name, fs[i + 1].name) == n;
      forall j | 0 <= j <= i + 1 ensures Accepted(s, name, p, fs[j], failing) && Matches(s, name, p, fs[j]) {
        if j > 0 {
          assert Accepted(s1, name, p, rest[j - 1], failing);
          assert fs[(j - 1) + 1] == fs[j];
        }
      }
    }
  }

  /** The upsert loop adds exactly the children it reaches. */
  lemma {:induction false} UpsertsOwnIff(s: Store, name: string, p: Platform, fs: seq<Feature>, failing: set<Call>, n: string)
    requires Admitted(s) && NoZombies(s)
    ensures n in Owned(UpsertAll(s, name, p, fs, failing).0, name) <==>
              n in Owned(s, name) || Reaches(s, name, p, fs, failing, n)
    decreases |fs|
  {
    if fs != [] {
      hide Upsert, Admitted, NoZombies, Reaches, ChildName, Owned;
      ReachesStep(s, name, p, fs, failing, n);
      UpsertKeeps(s, name, p, fs[0], failing);
      var (s1, o) := Upsert(s, name, p, fs[0], failing);
      if o.Ok? {
        UpsertOwns(s, name, p, fs[0], failing, n);
        UpsertsOwnIff(s1, name, p, fs[1..], failing, n);
      }
    }
  }

  lemma ReachedIsDesired(s: Store, name: string, p: Platform, fs: seq<Feature>, failing: set<Call>, n: string)
    requires Reaches(s, name, p, fs, failing, n)
    ensures n in DesiredNames(name, fs)
  {
    hide Accepted, Matches, ChildName;
  }

  /** ReconcileFeatures gains exactly those: pruning spares what is desired, whichever deletes fail. */
  lemma FeaturesGrowIff(s: Store, name: string, p: Platform, failing: set<Call>, reached: set<string>, n: string)
    requires Admitted(s) && NoZombies(s) && n !in Owned(s, name)
    ensures n in Owned(ReconcileFeatures(s, name, p, failing, reached).0, name) <==>
              Reaches(s, name, p, p.spec.features, failing, n)
  {
    hide UpsertAll, DeleteServices, DesiredNames, Reaches, Admitted, NoZombies;
    UpsertsOwnIff(s, name, p, p.spec.features, failing, n);
    var s1 := UpsertAll(s, name, p, p.spec.features, failing).0;
    var doomed := Owned(s1, name) - DesiredNames(name, p.spec.features);
    var blocked := set k | k in doomed && DeleteChild(k) in failing;
    DeleteKeepsOwners(s1, doomed, name);
    DeleteKeepsOwners(s1, (doomed - blocked) * reached, name);
    DesiredSurvives(s1, name, p, doomed, n);
    DesiredSurvives(s1, name, p, (doomed - blocked) * reached, n);
    if Reaches(s, name, p, p.spec.features, failing, n) {
      ReachedIsDesired(s, name, p, p.spec.features, failing, n);
    }
  }

  /**
   * Exactly when a platform gains a child, for every sound state and every step, whether or not it
   * is being deleted: a user creates a valid AIService that names it as controller, or a run of it
   * executes its AIService stage and its upsert loop gets as far as that child.
   */
  lemma OwnedGrowsIff(st: State, step: Step, name: string, n: string)
    requires Inv(st) && n !in Owned(st.store, name)
    ensures n in Owned(Next(st, step).store, name) <==>
              || (&& step.UserCreateService? && step.name == n && step.meta.controller == Some(PlatformOwner(name))
                  && n !in st.store.services && ServiceValid(DefaultService(step.service)))
              || (&& WritesChildren(st, step, name)
                  && var p := st.platformRun.value.p;
                     Reaches(st.store, name, p, p.spec.features, step.pw.failing, n))
  {
    InvStore(st);
    hide Inv, Next, Reaches, Admitted, NoZombies, WritesChildren, ReconcileFeatures, DesiredNames, ServiceValid, DefaultService, Owned;
    if WritesChildren(st, step, name) {
      WritesIsStage(st, step, name);
      ChildStageStore(st, step, name);
      FeaturesGrowIff(st.store, name, st.platformRun.value.p, step.pw.failing, step.pw.reached, n);
    } else if step.UserCreateService? && step.name == n {
      UserOwnsIff(st, step, name);
    } else if n in Owned(Next(st, step).store, name) {
      OwnedNeverGrows(st, step, name, n);
    }
  }

  lemma WritesIsStage(st: State, step: Step, name: string)
    requires WritesChildren(st, step, name)
    ensures step.PlatformStage? && st.platformRun.Some?
  {
  }

  lemma UserOwnsIff(st: State, step: Step, name: string)
    requires step.UserCreateService? && step.name !in Owned(st.store, name)
    ensures step.name in Owned(Next(st, step).store, name) <==>
              && step.meta.controller == Some(PlatformOwner(name))
              && step.name !in st.store.services && ServiceValid(DefaultService(step.service))
  {
    hide ServiceValid, DefaultService;
  }

  /**
   * A deletion does not hold the pending stage back: if the user deletes the platform in front of
   * its AIService stage, the platform, now in deletion, gains a child in that stage exactly when the
   * upsert loop reaches it, and exactly when it would have without the deletion.
   */
  lemma GainedInDeletionIff(st: State, w: P.World, name: string, n: string)
    requires Inv(st) && WritesChildren(st, PlatformStage(w), name) && n !in Owned(st.store, name)
    requires name in st.store.platforms && st.store.platforms[name].meta.finalizers != []
    ensures var u := Next(st, UserDeletePlatform(name));
            var p := st.platformRun.value.p;
            && BeingDeleted(u.store, name) && n !in Owned(u.store, name)
            && (n in Owned(Next(u, PlatformStage(w)).store, name) <==>
                  Reaches(st.store, name, p, p.spec.features, w.failing, n))
            && (n in Owned(Next(u, PlatformStage(w)).store, name) <==> n in Owned(Next(st, PlatformStage(w)).store, name))
  {
    var u := Next(st, UserDeletePlatform(name));
    DeletionOnlyMarks(st, name);
    NextSound(st, UserDeletePlatform(name));
    var p := st.platformRun.value.p;
    hide Inv, Next, ServiceValid, DefaultService;
    SameReach(st.store, u.store, name, p, p.spec.features, w.failing, n);
    hide Reaches;
    OwnedGrowsIff(st, PlatformStage(w), name, n);
    OwnedGrowsIff(u, PlatformStage(w), name, n);
  }

  lemma DeletionOnlyMarks(st: State, name: string)
    requires name in st.store.platforms && st.store.platforms[name].meta.finalizers != []
    ensures var u := Next(st, UserDeletePlatform(name));
            && u == st.(store := u.store) && BeingDeleted(u.store, name)
            && u.store.services == st.store.services && u.store.ns == st.store.ns
  {
  }

  lemma SameReach(s: Store, t: Store, name: string, p: Platform, fs: seq<Feature>, failing: set<Call>, n: string)
    requires s.services == t.services && s.ns == t.ns
    ensures Reaches(s, name, p, fs, failing, n) <==> Reaches(t, name, p, fs, failing, n)
  {
    hide ServiceValid, DefaultService, BuildService, ChildName;
    assert forall f :: Accepted(s, name, p, f, failing) <==> Accepted(t, name, p, f, failing);
    assert forall f :: Matches(s, name, p, f) <==> Matches(t, name, p, f);
  }

  // ---- over a whole deletion ------------------------------------------------------------------------

  /** The children a run already in flight may still write for this platform. */
  function PendingNames(st: State, name: string): set<string> {
    if st.platformRun.Some? && st.platformRun.value.name == name && st.platformRun.value.outcome.Ok? && st.platformRun.value.next <= 9
    then DesiredNames(name, st.platformRun.value.p.spec.features) else {}
  }

  predicate BeingDeleted(s: Store, name: string) {
    name in s.platforms && s.platforms[name].meta.deleting
  }

  lemma NextAdvances(st: State, step: Step)
    requires st.platformRun.Some? && Next(st, step).platformRun.Some?
    ensures var r, q := st.platformRun.value, Next(st, step).platformRun.value;
            r == q || (step.PlatformStage? && q.next == r.next + 1 && r.outcome.Ok?)
  {
    hide P.StageStep, EnvironmentStore, ServiceNext, FinalizePlatform, PublishPlatform, P.PublishedStatus;
    if step.ServiceFetch? || step.ServiceStage? || step.ServicePublish? || step.ServiceStatusWrite? {
      ServiceKeepsRun(st, step);
    } else if step.PlatformStage? && !P.Stopped(st.platformRun.value) {
      P.StepAdvances(st.store, st.platformRun.value, step.pw);
    }
  }

  /** While a platform is being deleted, nothing becomes pending that was not. */
  lemma PendingShrinks(st: State, step: Step, name: string)
    requires BeingDeleted(st.store, name)
    ensures PendingNames(Next(st, step), name) <= PendingNames(st, name)
  {
    hide Next, DesiredNames;
    if Next(st, step).platformRun.Some? {
      RunPlans(st, step);
      if st.platformRun.Some? {
        NextAdvances(st, step);
      }
    }
  }

  /** The AIServices users create during the run with the platform as controller. */
  function NamedBy(steps: seq<Step>, name: string): set<string> {
    set j | 0 <= j < |steps| && steps[j].UserCreateService? && steps[j].meta.controller == Some(PlatformOwner(name)) :: steps[j].name
  }

  /**
   * Over any run during which the platform is being deleted, and whatever was in flight when the
   * deletion began: the owned set grows at most by the children pending at that time, plus those
   * for which users name it as controller. With neither it never grows.
   */
  lemma {:induction false} OwnedNeverGrowsOverRuns(st: State, steps: seq<Step>, name: string)
    requires Inv(st)
    requires forall j {:trigger steps[..j]} :: 0 <= j < |steps| ==> BeingDeleted(Exec(st, steps[..j]).store, name)
    ensures Owned(Exec(st, steps).store, name) <= Owned(st.store, name) + PendingNames(st, name) + NamedBy(steps, name)
    ensures PendingNames(Exec(st, steps), name) <= PendingNames(st, name)
    ensures Inv(Exec(st, steps))
    decreases |steps|
  {
    hide Inv, Next, Owned, PendingNames;
    if steps != [] {
      var front, last := steps[..|steps| - 1], steps[|steps| - 1];
      forall j {:trigger front[..j]} | 0 <= j < |front| ensures BeingDeleted(Exec(st, front[..j]).store, name) {
        assert front[..j] == steps[..j];
      }
      OwnedNeverGrowsOverRuns(st, front, name);
      var u := Exec(st, front);
      assert BeingDeleted(u.store, name) by { assert front == steps[..|front|]; }
      PendingShrinks(u, last, name);
      NextSound(u, last);
      forall n | n in Owned(Next(u, last).store, name) ensures n in Owned(st.store, name) + PendingNames(st, name) + NamedBy(steps, name) {
        if n !in Owned(u.store, name) {
          OwnedNeverGrows(u, last, name, n);
          WritersPend(u, last, name);
          if last.UserCreateService? {
            assert steps[|steps| - 1] == last;
          }
        } else if n in NamedBy(front, name) {
          var j :| 0 <= j < |front| && front[j].UserCreateService? && front[j].meta.controller == Some(PlatformOwner(name)) && front[j].name == n;
          assert steps[j] == front[j];
        }
      }
    }
  }

  lemma WritersPend(st: State, step: Step, name: string)
    ensures WritesChildren(st, step, name) ==> PendingNames(st, name) == DesiredNames(name, st.platformRun.value.p.spec.features)
  {
  }

  /** A run in flight took its copy before the deletion: the copy carries no deletion mark. */
  lemma {:induction false} RunsStartBeforeDeletion(ns: string, quantities: iset<string>, steps: seq<Step>)
    ensures var st := Exec(Empty(ns, quantities), steps);
            st.platformRun.Some? ==> !st.platformRun.value.p.meta.deleting
    decreases |steps|
  {
    hide Next;
    if steps != [] {
      RunsStartBeforeDeletion(ns, quantities, steps[..|steps| - 1]);
      var st := Exec(Empty(ns, quantities), steps[..|steps| - 1]);
      if Next(st, steps[|steps| - 1]).platformRun.Some? {
        RunPlans(st, steps[|steps| - 1]);
      }
    }
  }

  // ---- the measure -----------------------------------------------------------------------------------

  /** One for the object, one for each finalizer, one while it is not marked yet. */
  function Weight(m: Meta): nat {
    1 + |m.finalizers| + if m.deleting then 0 else 1
  }

  ghost function Sum(weights: map<string, nat>, names: set<string>): nat
    requires names <= weights.Keys
  {
    if names == {} then 0
    else
      var n :| n in names;
      weights[n] + Sum(weights, names - {n})
  }

  function Weights(s: Store): map<string, nat> {
    map n | n in s.services :: Weight(s.services[n].meta)
  }

  /** What is left to do before nothing is owned any more. */
  ghost function Measure(s: Store, name: string): nat {
    Sum(Weights(s), Owned(s, name))
  }

  lemma {:induction false} SumWithout(weights: map<string, nat>, names: set<string>, n: string)
    requires names <= weights.Keys && n in names
    ensures Sum(weights, names) == weights[n] + Sum(weights, names - {n})
    decreases names
  {
    var m :| m in names && Sum(weights, names) == weights[m] + Sum(weights, names - {m});
    if m != n {
      SumWithout(weights, names - {m}, n);
      SumWithout(weights, names - {n}, m);
      assert names - {m} - {n} == names - {n} - {m};
    }
  }

  /** Fewer names, none heavier, weigh no more; less if one got lighter or a weight is gone. */
  lemma {:induction false} SumShrinks(a: map<string, nat>, more: set<string>, b: map<string, nat>, fewer: set<string>)
    requires more <= a.Keys && fewer <= b.Keys && fewer <= more
    requires forall n :: n in fewer ==> b[n] <= a[n]
    ensures Sum(b, fewer) <= Sum(a, more)
    ensures (exists n :: n in more && (if n in fewer then b[n] < a[n] else a[n] > 0)) ==> Sum(b, fewer) < Sum(a, more)
    decreases more
  {
    if more != {} {
      var n: string;
      if k :| k in more && (if k in fewer then b[k] < a[k] else a[k] > 0) {
        n := k;
      } else {
        n :| n in more;
      }
      SumWithout(a, more, n);
      SumShrinks(a, more - {n}, b, fewer - {n});
      if n in fewer {
        SumWithout(b, fewer, n);
      } else {
        assert fewer - {n} == fewer;
      }
    }
  }

  /** The object got no new finalizer and lost no deletion mark. */
  predicate Lighter(a: Meta, b: Meta) {
    && |b.finalizers| <= |a.finalizers| && (forall f :: f in b.finalizers ==> f in a.finalizers)
    && (a.deleting ==> b.deleting)
  }

  predicate LighterAt(s: Store, t: Store, n: string) {
    n in s.services && n in t.services ==> Lighter(s.services[n].meta, t.services[n].meta)
  }

  lemma UpdateLighter(s: Store, k: string, v: Service, n: string)
    requires k in s.services && s.services[k].meta.uid == v.meta.uid && s.services[k].meta.version == v.meta.version ==>
               Lighter(s.services[k].meta, v.meta)
    ensures LighterAt(s, UpdateService(s, k, v).0, n)
  {
    hide ServiceUpdateValid, DefaultService;
  }

  lemma CreateLighter(s: Store, k: string, m: Meta, spec: ServiceSpec, n: string)
    ensures LighterAt(s, CreateService(s, k, m, spec).0, n)
  {
    hide ServiceValid, DefaultService;
  }

  lemma DeleteLighter(s: Store, names: set<string>, n: string)
    ensures LighterAt(s, DeleteServices(s, names), n)
  {
  }

  lemma {:induction false} UpsertsLighter(s: Store, name: string, p: Platform, fs: seq<Feature>, failing: set<Call>, n: string)
    requires Admitted(s) && NoZombies(s)
    ensures var t := UpsertAll(s, name, p, fs, failing).0;
            LighterAt(s, t, n) && (n in s.services ==> n in t.services)
    decreases |fs|
  {
    hide Upsert, UpsertValue, Admitted, NoZombies, ConvergedValue, ChildWritten;
    if fs != [] {
      var s1 := Upsert(s, name, p, fs[0], failing).0;
      if Upsert(s, name, p, fs[0], failing).1.Ok? {
        UpsertWrites(s, name, p, fs[0], failing);
        UpsertValueConverges(s, name, p, fs[0]);
        UpsertKeeps(s, name, p, fs[0], failing);
        UpsertsLighter(s1, name, p, fs[1..], failing, n);
      }
    }
  }

  lemma FeaturesLighter(s: Store, name: string, p: Platform, failing: set<Call>, reached: set<string>, n: string)
    requires Admitted(s) && NoZombies(s)
    ensures LighterAt(s, ReconcileFeatures(s, name, p, failing, reached).0, n)
  {
    hide UpsertAll, Admitted, NoZombies, DeleteServices, DesiredNames, Owned;
    UpsertsLighter(s, name, p, p.spec.features, failing, n);
    var s1 := UpsertAll(s, name, p, p.spec.features, failing).0;
    var doomed := Owned(s1, name) - DesiredNames(name, p.spec.features);
    var blocked := set k | k in doomed && DeleteChild(k) in failing;
    DeleteLighter(s1, doomed, n);
    DeleteLighter(s1, (doomed - blocked) * reached, n);
    DeletionOnlyRemoves(s1, doomed, n);
    DeletionOnlyRemoves(s1, (doomed - blocked) * reached, n);
  }

  lemma DeletionOnlyRemoves(s: Store, names: set<string>, n: string)
    ensures n in DeleteServices(s, names).services ==> n in s.services
  {
  }

  lemma PlatformLighter(st: State, step: Step, n: string)
    requires step.PlatformFetch? || step.PlatformStage? || step.PlatformPublish?
    requires Admitted(st.store) && NoZombies(st.store)
    ensures LighterAt(st.store, PlatformNext(st, step).store, n)
  {
    hide ReconcileFeatures, P.ValidatePlatform, P.ReconcileWeaviate, DeleteServices, UpdatePlatform, RemoveAll, Owned, Admitted, NoZombies;
    var s := st.store;
    if step.PlatformStage? && st.platformRun.Some? && !P.Stopped(st.platformRun.value) {
      var r := st.platformRun.value;
      FeaturesLighter(s, r.name, r.p, step.pw.failing, step.pw.reached, n);
      WeaviateFrame(s, r.name, r.p, step.pw);
    } else if step.PlatformFetch? && step.name in s.platforms {
      var p := s.platforms[step.name];
      DeleteLighter(s, (set k | k in Owned(s, step.name) && DeleteChild(k) !in step.failing), n);
      UpdatePlatformServices(s, step.name,
        p.(meta := p.meta.(finalizers := RemoveAll(p.meta.finalizers, FINALIZER_PLATFORM))), st.quantities);
    }
  }

  lemma AccountLighter(s: Store, k: string, ai: Service, w: S.World, n: string)
    requires CopyCurrent(s, k, ai.meta)
    ensures LighterAt(s, S.ReconcileAccount(s, k, ai, w).0, n)
  {
    hide UpdateService;
    UpdateLighter(s, k, ai.(spec := ai.spec.(serviceAccount := k + "-sa")), n);
  }

  lemma SaiaStageLighter(s: Store, r: S.Run, w: S.World, n: string)
    requires !S.Stopped(r) && CopyCurrent(s, r.name, r.ai.meta)
    ensures LighterAt(s, S.StageStep(s, r, w).0, n)
  {
    hide S.ValidateSpec, S.ReconcileAccount, S.ReconcileHook, S.ReconcileCertificate, S.ReconcileDeployment, S.ForeignAnnotations, CopyCurrent;
    HookFrame(s, r.name, r.ai, w);
    CertificateFrame(s, r.name, r.ai, w);
    DeploymentFrame(s, r.name, r.ai, w);
    AccountLighter(s, r.name, r.ai, w, n);
  }

  lemma {:induction false} RemoveAllShortens(xs: seq<string>, x: string)
    ensures |RemoveAll(xs, x)| <= |xs|
    ensures x in xs ==> |RemoveAll(xs, x)| < |xs|
  {
    if xs != [] {
      RemoveAllShortens(xs[1..], x);
    }
  }

  lemma ServiceLighter(st: State, step: Step, n: string)
    requires step.ServiceFetch? || step.ServiceStage? || step.ServicePublish? || step.ServiceStatusWrite?
    requires Inv(st)
    ensures LighterAt(st.store, ServiceNext(st, step).store, n)
  {
    hide Inv, CopyCurrent;
    var s := st.store;
    if step.ServiceStage? && st.serviceRun.Some? && !S.Stopped(st.serviceRun.value.run) {
      CopyIsCurrent(st);
      hide S.StageStep, ReadsCompleted, S.CreatesJob, JobName, LighterAt;
      SaiaStageLighter(s, st.serviceRun.value.run, step.sw, n);
    } else if step.ServiceFetch? {
      FetchLighter(st, step, n);
    } else {
      hide WithReady, S.ToPublish;
    }
  }

  lemma FetchLighter(st: State, step: Step, n: string)
    requires step.ServiceFetch?
    ensures LighterAt(st.store, ServiceNext(st, step).store, n)
  {
    hide UpdateService, RemoveAll;
    var s := st.store;
    if step.name in s.services {
      var v := s.services[step.name];
      RemoveAllShortens(v.meta.finalizers, FINALIZER_SERVICE);
      UpdateLighter(s, step.name, v.(meta := v.meta.(finalizers := RemoveAll(v.meta.finalizers, FINALIZER_SERVICE))), n);
    }
  }

  lemma CopyIsCurrent(st: State)
    requires Inv(st) && st.serviceRun.Some?
    ensures CopyCurrent(st.store, st.serviceRun.value.run.name, st.serviceRun.value.run.ai.meta)
  {
    hide StoreSound, ServiceRunSound, PlatformRunSound, CopyCurrent;
  }

  lemma DropLighter(s: Store, step: Step, quantities: iset<string>, n: string)
    requires step.DropFinalizer?
    ensures LighterAt(s, EnvironmentStore(s, step, quantities), n)
  {
    hide DropServiceFinalizer, DropPlatformFinalizer;
    var k, f := step.name, step.finalizer;
    var t := if k in s.services then DropServiceFinalizer(s, k, f) else s;
    DropOneLighter(s, k, f, n);
    DropPlatformFrames(t, k, f);
  }

  lemma DropOneLighter(s: Store, k: string, f: string, n: string)
    ensures k in s.services ==> LighterAt(s, DropServiceFinalizer(s, k, f), n)
  {
    hide RemoveAll;
    if k in s.services {
      RemoveAllShortens(s.services[k].meta.finalizers, f);
    }
  }

  lemma EnvironmentLighter(s: Store, step: Step, quantities: iset<string>, n: string)
    requires !IsController(step)
    ensures LighterAt(s, EnvironmentStore(s, step, quantities), n)
  {
    if OnPlatforms(step) {
      hide EnvironmentStore;
      PlatformUserFrame(s, step, quantities);
    } else if step.DropFinalizer? {
      DropLighter(s, step, quantities, n);
    } else {
      hide UpdateService, CreateService, DeleteServices;
      match step {
        case UserCreateService(k, m, spec) => CreateLighter(s, k, m, spec, n);
        case UserEditService(k, labels, annotations, spec) =>
          if k in s.services {
            var v := s.services[k];
            UpdateLighter(s, k, v.(spec := spec, meta := v.meta.(labels := labels, annotations := annotations)), n);
          }
        case UserDeleteService(k) => DeleteLighter(s, {k}, n);
        case _ =>
      }
    }
  }

  /** No step whatever gives a stored AIService another finalizer or takes its deletion mark away. */
  lemma StepLighter(st: State, step: Step, n: string)
    requires Inv(st)
    ensures LighterAt(st.store, Next(st, step).store, n)
  {
    InvStore(st);
    hide PlatformNext, ServiceNext, EnvironmentStore, Inv, LighterAt, Admitted, NoZombies;
    if step.PlatformFetch? || step.PlatformStage? || step.PlatformPublish? {
      PlatformLighter(st, step, n);
    } else if step.ServiceFetch? || step.ServiceStage? || step.ServicePublish? || step.ServiceStatusWrite? {
      ServiceLighter(st, step, n);
    } else {
      EnvironmentLighter(st.store, step, st.quantities, n);
    }
  }

  /** The two kinds of step that can give the platform a child. */
  predicate MayGrow(st: State, step: Step, name: string) {
    WritesChildren(st, step, name) || (step.UserCreateService? && step.meta.controller == Some(PlatformOwner(name)))
  }

  /** Every other step keeps the measure from growing. */
  lemma MeasureNeverGrows(st: State, step: Step, name: string)
    requires Inv(st) && !MayGrow(st, step, name)
    ensures Owned(Next(st, step).store, name) <= Owned(st.store, name)
    ensures Measure(Next(st, step).store, name) <= Measure(st.store, name)
    ensures (exists n :: n in Owned(st.store, name)
                         && (n !in Owned(Next(st, step).store, name)
                             || Weight(Next(st, step).store.services[n].meta) < Weight(st.store.services[n].meta))) ==>
              Measure(Next(st, step).store, name) < Measure(st.store, name)
  {
    hide Inv, Next, Sum, WritesChildren;
    var s, t := st.store, Next(st, step).store;
    forall n | n in Owned(t, name) ensures n in Owned(s, name) {
      if n !in Owned(s, name) {
        OwnedNeverGrows(st, step, name, n);
      }
    }
    forall n | n in Owned(t, name) ensures Weights(t)[n] <= Weights(s)[n] {
      StepLighter(st, step, n);
    }
    forall n | n in Owned(s, name) ensures Weights(s)[n] > 0 {
    }
    SumShrinks(Weights(s), Owned(s, name), Weights(t), Owned(t, name));
  }

  // ---- progress ----------------------------------------------------------------------------------------

  /**
   * The steps that get a deletion on: a fetch of the platform that deletes an unmarked child, a
   * fetch of a marked child this operator still holds, and another controller's release.
   */
  predicate Productive(st: State, step: Step, name: string) {
    var s := st.store;
    || (step.PlatformFetch? && step.name == name && st.platformRun.None? && BeingDeleted(s, name) && Protected(s, name)
        && ListChildren !in step.failing
        && exists n :: n in Owned(s, name) && !s.services[n].meta.deleting && DeleteChild(n) !in step.failing)
    || (step.ServiceFetch? && step.name in Owned(s, name) && st.serviceRun.None? && s.services[step.name].meta.deleting
        && FINALIZER_SERVICE in s.services[step.name].meta.finalizers && UpdateSpec !in step.failing)
    || (step.DropFinalizer? && step.name in Owned(s, name) && step.finalizer in s.services[step.name].meta.finalizers
        && step.finalizer != FINALIZER_PLATFORM && step.finalizer != FINALIZER_SERVICE)
  }

  predicate GotLighter(s: Store, t: Store, n: string) {
    n in s.services && (n !in t.services || Weight(t.services[n].meta) < Weight(s.services[n].meta))
  }

  lemma FetchLightens(st: State, step: Step, name: string, n: string)
    requires step.PlatformFetch? && step.name == name && st.platformRun.None? && BeingDeleted(st.store, name) && Protected(st.store, name)
    requires ListChildren !in step.failing
    requires n in Owned(st.store, name) && !st.store.services[n].meta.deleting && DeleteChild(n) !in step.failing
    ensures GotLighter(st.store, Next(st, step).store, n)
  {
    hide UpdatePlatform, RemoveAll;
  }

  lemma ServiceFetchLightens(st: State, step: Step, n: string)
    requires Admitted(st.store) && step.ServiceFetch? && step.name == n && st.serviceRun.None? && n in st.store.services
    requires st.store.services[n].meta.deleting && FINALIZER_SERVICE in st.store.services[n].meta.finalizers && UpdateSpec !in step.failing
    ensures GotLighter(st.store, Next(st, step).store, n)
  {
    hide Admitted, UpdateService, RemoveAll;
    var v := st.store.services[n];
    var v1 := v.(meta := v.meta.(finalizers := RemoveAll(v.meta.finalizers, FINALIZER_SERVICE)));
    RemoveAllShortens(v.meta.finalizers, FINALIZER_SERVICE);
    MetadataUpdate(st.store, n, v1);
  }

  lemma DropLightens(st: State, step: Step, n: string)
    requires step.DropFinalizer? && step.name == n && n in st.store.services && step.finalizer in st.store.services[n].meta.finalizers
    requires step.finalizer != FINALIZER_PLATFORM && step.finalizer != FINALIZER_SERVICE
    ensures GotLighter(st.store, Next(st, step).store, n)
  {
    hide RemoveAll, DropPlatformFinalizer;
    var s, f := st.store, step.finalizer;
    RemoveAllShortens(s.services[n].meta.finalizers, f);
    var t := DropServiceFinalizer(s, n, f);
    DropPlatformFrames(t, n, f);
  }

  lemma LightensMeasure(st: State, step: Step, name: string, n: string)
    requires Inv(st) && !MayGrow(st, step, name) && n in Owned(st.store, name) && GotLighter(st.store, Next(st, step).store, n)
    ensures Measure(Next(st, step).store, name) < Measure(st.store, name)
  {
    hide Inv, Next, Measure, MayGrow, Weight;
    MeasureNeverGrows(st, step, name);
    if n in Next(st, step).store.services {
    }
  }

  /** Every productive step makes some owned child lighter, and cannot add one. */
  lemma ProductiveLightens(st: State, step: Step, name: string) returns (n: string)
    requires Inv(st) && Productive(st, step, name)
    ensures n in Owned(st.store, name) && GotLighter(st.store, Next(st, step).store, n)
    ensures !step.UserCreateService? && !MayGrow(st, step, name)
  {
    InvStore(st);
    if step.PlatformFetch? {
      hide Inv, Next, Admitted, NoZombies, GotLighter, MayGrow, Owned, Protected, BeingDeleted;
      n :| n in Owned(st.store, name) && !st.store.services[n].meta.deleting && DeleteChild(n) !in step.failing;
      FetchLightens(st, step, name, n);
      NotGrowing(st, step, name);
    } else if step.ServiceFetch? {
      n := step.name;
      assert n in st.store.services;
      hide Inv, Next, Admitted, NoZombies, GotLighter, MayGrow, Owned;
      ServiceFetchLightens(st, step, n);
      NotGrowing(st, step, name);
    } else {
      n := step.name;
      assert n in st.store.services;
      hide Inv, Next, Admitted, NoZombies, GotLighter, MayGrow, Owned;
      DropLightens(st, step, n);
      NotGrowing(st, step, name);
    }
  }

  /** Every productive step decreases the measure. */
  lemma ProductiveDecreases(st: State, step: Step, name: string)
    requires Inv(st) && Productive(st, step, name)
    ensures Measure(Next(st, step).store, name) < Measure(st.store, name)
  {
    var n := ProductiveLightens(st, step, name);
    hide Inv, Next, Measure, Productive, GotLighter, MayGrow, Owned;
    LightensMeasure(st, step, name, n);
  }

  lemma NotGrowing(st: State, step: Step, name: string)
    requires !step.PlatformStage? && !step.UserCreateService?
    ensures !MayGrow(st, step, name)
  {
  }

  // ---- over runs -----------------------------------------------------------------------------------------

  ghost function CountProductive(st: State, steps: seq<Step>, name: string): nat {
    if steps == [] then 0
    else
      var front, last := steps[..|steps| - 1], steps[|steps| - 1];
      CountProductive(st, front, name) + if Productive(Exec(st, front), last, name) then 1 else 0
  }

  /** In any run without growth the productive steps are at most as many as the measure at its start. */
  lemma {:induction false} ProductiveStepsBounded(st: State, steps: seq<Step>, name: string)
    requires Inv(st)
    requires forall j {:trigger steps[..j]} :: 0 <= j < |steps| ==> !MayGrow(Exec(st, steps[..j]), steps[j], name)
    ensures CountProductive(st, steps, name) + Measure(Exec(st, steps).store, name) <= Measure(st.store, name)
    ensures Inv(Exec(st, steps))
    decreases |steps|
  {
    hide Inv, Next, Measure, MayGrow, Productive;
    if steps != [] {
      var front, last := steps[..|steps| - 1], steps[|steps| - 1];
      forall j {:trigger front[..j]} | 0 <= j < |front| ensures !MayGrow(Exec(st, front[..j]), front[j], name) {
        assert front[..j] == steps[..j] && front[j] == steps[j];
      }
      ProductiveStepsBounded(st, front, name);
      assert !MayGrow(Exec(st, front), last, name) by { assert steps[..|front|] == front; }
      MeasureNeverGrows(Exec(st, front), last, name);
      NextSound(Exec(st, front), last);
      if Productive(Exec(st, front), last, name) {
        ProductiveDecreases(Exec(st, front), last, name);
      }
    }
  }

  /** No child carries the platform's own protecting finalizer, which nothing here would release. */
  predicate Freeable(s: Store, name: string) {
    forall n :: n in Owned(s, name) ==> FINALIZER_PLATFORM !in s.services[n].meta.finalizers
  }

  /** A platform in deletion with nothing in flight. */
  ghost predicate Drainable(st: State, name: string) {
    Inv(st) && Idle(st) && BeingDeleted(st.store, name) && Protected(st.store, name) && Freeable(st.store, name)
  }

  /** As long as something is owned, some productive step is possible. */
  lemma SomeProductive(st: State, name: string) returns (step: Step)
    requires Drainable(st, name) && Owned(st.store, name) != {}
    ensures Productive(st, step, name) && (step.PlatformFetch? || step.ServiceFetch? || step.DropFinalizer?)
  {
    InvStore(st);
    assert BeingDeleted(st.store, name) && Protected(st.store, name) && Idle(st) && Freeable(st.store, name);
    var s := st.store;
    var n :| n in Owned(s, name);
    assert s.services[n].meta.deleting ==> s.services[n].meta.finalizers != [];
    assert FINALIZER_PLATFORM !in s.services[n].meta.finalizers;
    hide *;
    if !s.services[n].meta.deleting {
      step := PlatformFetch(name, {});
      FetchIsProductive(st, name, n);
    } else if FINALIZER_SERVICE in s.services[n].meta.finalizers {
      step := ServiceFetch(n, {});
      ServiceFetchIsProductive(st, name, n);
    } else {
      step := DropFinalizer(n, s.services[n].meta.finalizers[0]);
      DropIsProductive(st, name, n, s.services[n].meta.finalizers[0]);
    }
  }

  lemma FetchIsProductive(st: State, name: string, n: string)
    requires Idle(st) && BeingDeleted(st.store, name) && Protected(st.store, name)
    requires n in Owned(st.store, name) && !st.store.services[n].meta.deleting
    ensures Productive(st, PlatformFetch(name, {}), name)
  {
    hide BeingDeleted, Protected, Owned;
    assert DeleteChild(n) !in PlatformFetch(name, {}).failing;
  }

  lemma ServiceFetchIsProductive(st: State, name: string, n: string)
    requires Idle(st) && n in Owned(st.store, name)
    requires st.store.services[n].meta.deleting && FINALIZER_SERVICE in st.store.services[n].meta.finalizers
    ensures Productive(st, ServiceFetch(n, {}), name)
  {
    hide BeingDeleted, Protected, Owned;
  }

  lemma DropIsProductive(st: State, name: string, n: string, f: string)
    requires n in Owned(st.store, name) && f in st.store.services[n].meta.finalizers
    requires f != FINALIZER_PLATFORM && f != FINALIZER_SERVICE
    ensures Productive(st, DropFinalizer(n, f), name)
  {
    hide BeingDeleted, Protected, Owned;
  }

  lemma ProductiveKeepsIdle(st: State, step: Step, name: string)
    requires Idle(st) && Productive(st, step, name) && (step.PlatformFetch? || step.ServiceFetch? || step.DropFinalizer?)
    ensures Idle(Next(st, step))
  {
    hide FinalizePlatform, FinalizeService, EnvironmentStore, Protected;
  }

  lemma ProductiveKeepsDeletion(st: State, step: Step, name: string)
    requires Productive(st, step, name) && (step.PlatformFetch? || step.ServiceFetch? || step.DropFinalizer?)
    requires Idle(st) && BeingDeleted(st.store, name) && Protected(st.store, name)
    ensures Protected(Next(st, step).store, name) && BeingDeleted(Next(st, step).store, name)
  {
    if step.PlatformFetch? {
      hide UpdatePlatform, RemoveAll, DeleteServices;
      DeleteFrame(st.store, (set n | n in Owned(st.store, name) && DeleteChild(n) !in step.failing));
    } else if step.ServiceFetch? {
      hide Productive, Next, Protected, BeingDeleted, ServiceNext;
      ServiceStepsKeepPlatforms(st, step);
      SamePlatforms(st.store, ServiceNext(st, step).store, name);
      assert Next(st, step) == ServiceNext(st, step) by { NextIsService(st, step); }
    } else {
      hide Productive, Protected, EnvironmentStore;
      DropKeepsProtection(st.store, name, step, st.quantities);
      DropKeepsDeleting(st.store, name, step, st.quantities);
    }
  }

  lemma NextIsService(st: State, step: Step)
    requires step.ServiceFetch?
    ensures Next(st, step) == ServiceNext(st, step)
  {
    hide ServiceNext;
  }

  lemma SamePlatforms(s: Store, t: Store, name: string)
    requires t.platforms == s.platforms && Protected(s, name) && BeingDeleted(s, name)
    ensures Protected(t, name) && BeingDeleted(t, name)
  {
  }

  lemma DropKeepsDeleting(s: Store, name: string, step: Step, quantities: iset<string>)
    requires step.DropFinalizer? && BeingDeleted(s, name)
    ensures var t := EnvironmentStore(s, step, quantities);
            name in t.platforms ==> t.platforms[name].meta.deleting
  {
    hide DropServiceFinalizer, DropPlatformFinalizer;
    DropServiceFrame(s, step.name, step.finalizer);
    var t := if step.name in s.services then DropServiceFinalizer(s, step.name, step.finalizer) else s;
    DroppedStaysDeleted(t, step.name, step.finalizer, name);
  }

  lemma DroppedStaysDeleted(s: Store, n: string, f: string, name: string)
    requires BeingDeleted(s, name)
    ensures n in s.platforms ==>
              var t := DropPlatformFinalizer(s, n, f);
              name in t.platforms ==> t.platforms[name].meta.deleting
  {
    hide RemoveAll;
  }

  lemma ProductiveKeepsFreeable(st: State, step: Step, name: string)
    requires Inv(st) && !MayGrow(st, step, name) && Freeable(st.store, name)
    ensures Freeable(Next(st, step).store, name)
  {
    hide Inv, Next, MayGrow, Measure;
    MeasureNeverGrows(st, step, name);
    var t := Next(st, step).store;
    forall n | n in Owned(t, name) ensures FINALIZER_PLATFORM !in t.services[n].meta.finalizers {
      StepLighter(st, step, n);
    }
  }

  /**
   * Termination: from every sound state with nothing in flight, a platform in deletion is released
   * within as many steps as its measure, plus one.
   */
  lemma {:induction false} ReleasedWithinMeasure(st: State, name: string) returns (steps: seq<Step>)
    requires Drainable(st, name)
    ensures |steps| <= Measure(st.store, name) + 1
    ensures !Protected(Exec(st, steps).store, name)
    decreases Measure(st.store, name)
  {
    if Owned(st.store, name) == {} {
      steps := [PlatformFetch(name, {})];
      ExecOne(st, PlatformFetch(name, {}));
      AdmittedPlatforms(st);
      hide Inv, Next, Exec;
      LastFetchReleasesIff(st, name);
    } else {
      hide Measure, Next, Exec, Productive, Owned, Protected, Inv, BeingDeleted, Freeable, MayGrow;
      var step := SomeProductive(st, name);
      var u := Next(st, step);
      NotGrowing(st, step, name);
      ProductiveDecreases(st, step, name);
      NextSound(st, step);
      ProductiveKeepsIdle(st, step, name);
      ProductiveKeepsDeletion(st, step, name);
      ProductiveKeepsFreeable(st, step, name);
      var rest := ReleasedWithinMeasure(u, name);
      steps := [step] + rest;
      ExecAppend(st, [step], rest);
      ExecOne(st, step);
    }
  }

  lemma AdmittedPlatforms(st: State)
    requires Inv(st)
    ensures PlatformsAdmitted(st.store, st.quantities)
  {
    hide Admitted, NoZombies, ChildrenSound, SelectorsMatch, JobsBalanced, UidsBelow, PlatformsAdmitted;
  }

  // ---- the measure with what is pending -----------------------------------------------------------------

  /** What a name weighs as an object, plus what a run in flight may still create under it. */
  function Charge(st: State, name: string, n: string): nat {
    (if n in st.store.services then Weight(st.store.services[n].meta) else 0) + if n in PendingNames(st, name) then 2 else 0
  }

  function Concerned(st: State, name: string): set<string> {
    Owned(st.store, name) + PendingNames(st, name)
  }

  function Charges(st: State, name: string): map<string, nat> {
    map n | n in Concerned(st, name) :: Charge(st, name, n)
  }

  /** What is left to do, the children a run in flight may still add included. */
  ghost function Potential(st: State, name: string): nat {
    Sum(Charges(st, name), Concerned(st, name))
  }

  /** With nothing in flight there is nothing pending. */
  lemma IdlePotential(st: State, name: string)
    requires Idle(st)
    ensures Potential(st, name) == Measure(st.store, name)
  {
    assert Concerned(st, name) == Owned(st.store, name);
    SumShrinks(Charges(st, name), Concerned(st, name), Weights(st.store), Owned(st.store, name));
    SumShrinks(Weights(st.store), Owned(st.store, name), Charges(st, name), Concerned(st, name));
  }

  lemma {:induction false} UpsertsBornFree(s: Store, name: string, p: Platform, fs: seq<Feature>, failing: set<Call>, n: string)
    requires Admitted(s) && NoZombies(s) && n !in s.services
    ensures var t := UpsertAll(s, name, p, fs, failing).0;
            n in t.services ==> t.services[n].meta.finalizers == []
    decreases |fs|
  {
    hide Upsert, UpsertValue, Admitted, NoZombies, ConvergedValue, ChildWritten, ChildName;
    if fs != [] && Upsert(s, name, p, fs[0], failing).1.Ok? {
      var s1 := Upsert(s, name, p, fs[0], failing).0;
      UpsertWrites(s, name, p, fs[0], failing);
      UpsertValueConverges(s, name, p, fs[0]);
      UpsertKeeps(s, name, p, fs[0], failing);
      if n in s1.services {
        UpsertsLighter(s1, name, p, fs[1..], failing, n);
      } else {
        UpsertsBornFree(s1, name, p, fs[1..], failing, n);
      }
    }
  }

  lemma FeaturesBornFree(s: Store, name: string, p: Platform, failing: set<Call>, reached: set<string>, n: string)
    requires Admitted(s) && NoZombies(s) && n !in s.services
    ensures var t := ReconcileFeatures(s, name, p, failing, reached).0;
            n in t.services ==> t.services[n].meta.finalizers == []
  {
    hide UpsertAll, Admitted, NoZombies, DeleteServices, DesiredNames, Owned;
    UpsertsBornFree(s, name, p, p.spec.features, failing, n);
    var s1 := UpsertAll(s, name, p, p.spec.features, failing).0;
    var doomed := Owned(s1, name) - DesiredNames(name, p.spec.features);
    var blocked := set k | k in doomed && DeleteChild(k) in failing;
    forall names ensures LighterAt(s1, DeleteServices(s1, names), n) && (n in DeleteServices(s1, names).services ==> n in s1.services) {
      DeleteLighter(s1, names, n);
      DeletionOnlyRemoves(s1, names, n);
    }
  }

  /** What a step creates without a user, an AIService stage created, and it carries no finalizer. */
  lemma StepBornFree(st: State, step: Step, n: string)
    requires Inv(st) && n !in st.store.services && n in Next(st, step).store.services
    requires step.UserCreateService? ==> step.name != n
    ensures step.PlatformStage? && st.platformRun.Some? && WritesChildren(st, step, st.platformRun.value.name)
    ensures Next(st, step).store.services[n].meta.finalizers == []
  {
    hide Inv, Next, WritesChildren, DesiredNames, Admitted, NoZombies, ReconcileFeatures;
    StepProvenance(st, step, n);
    var r := st.platformRun.value;
    InvStore(st);
    ChildStageStore(st, step, r.name);
    FeaturesBornFree(st.store, r.name, r.p, step.pw.failing, step.pw.reached, n);
  }

  /** Users neither name the platform as controller nor create an AIService under a pending name. */
  predicate Quiet(st: State, step: Step, name: string) {
    step.UserCreateService? ==> step.meta.controller != Some(PlatformOwner(name)) && step.name !in PendingNames(st, name)
  }

  lemma StageEndsPending(st: State, step: Step, name: string)
    requires WritesChildren(st, step, name)
    ensures PendingNames(Next(st, step), name) == {}
  {
    hide ReconcileFeatures, P.Listing, DesiredNames;
    assert P.STAGES[9] == P.AIService;
  }

  lemma ConcernedShrinks(st: State, step: Step, name: string)
    requires Inv(st) && BeingDeleted(st.store, name) && Quiet(st, step, name)
    ensures Concerned(Next(st, step), name) <= Concerned(st, name)
  {
    hide Inv, Next, Owned, PendingNames, BeingDeleted, WritesChildren, DesiredNames;
    PendingShrinks(st, step, name);
    forall n | n in Owned(Next(st, step).store, name) ensures n in Concerned(st, name) {
      if n !in Owned(st.store, name) {
        OwnedNeverGrows(st, step, name, n);
        WritersPend(st, step, name);
      }
    }
  }

  lemma NotPendingForOthers(st: State, name: string)
    requires st.platformRun.Some? && st.platformRun.value.name != name
    ensures PendingNames(st, name) == {}
  {
  }

  lemma ChargeNeverGrows(st: State, step: Step, name: string, n: string)
    requires Inv(st) && BeingDeleted(st.store, name) && Quiet(st, step, name)
    requires n in Concerned(Next(st, step), name)
    ensures n in Concerned(st, name) && Charge(Next(st, step), name, n) <= Charge(st, name, n)
  {
    hide Inv, Next, PendingNames, BeingDeleted, WritesChildren;
    ConcernedShrinks(st, step, name);
    PendingShrinks(st, step, name);
    var t := Next(st, step).store;
    if n in st.store.services {
      StepLighter(st, step, n);
    } else if n in t.services {
      assert n in PendingNames(st, name);
      StepBornFree(st, step, n);
      var r := st.platformRun.value;
      if r.name != name {
        NotPendingForOthers(st, name);
        assert false;
      }
      StageEndsPending(st, step, name);
    }
  }

  lemma QuietNeverGrows(st: State, step: Step, name: string)
    requires Inv(st) && BeingDeleted(st.store, name) && Quiet(st, step, name)
    ensures Potential(Next(st, step), name) <= Potential(st, name)
    ensures (exists n :: n in Owned(st.store, name) && GotLighter(st.store, Next(st, step).store, n)) ==>
              Potential(Next(st, step), name) < Potential(st, name)
  {
    hide Inv, Next, PendingNames, BeingDeleted, Charge, Owned, Quiet, GotLighter;
    var u := Next(st, step);
    ConcernedShrinks(st, step, name);
    forall n | n in Concerned(u, name) ensures Charges(u, name)[n] <= Charges(st, name)[n] {
      ChargeNeverGrows(st, step, name, n);
    }
    if n :| n in Owned(st.store, name) && GotLighter(st.store, u.store, n) {
      assert n in Concerned(st, name);
      PendingShrinks(st, step, name);
      LighterCharge(st, u, name, n);
      SumShrinks(Charges(st, name), Concerned(st, name), Charges(u, name), Concerned(u, name));
    } else {
      SumShrinks(Charges(st, name), Concerned(st, name), Charges(u, name), Concerned(u, name));
    }
  }

  /** What a user adds by creating a child of a platform in deletion, or one that is still to be claimed. */
  function Added(st: State, step: Step, name: string): nat {
    if Quiet(st, step, name) then 0 else 2 + |step.meta.finalizers|
  }

  /** A user's creation stores one object, or none, and nothing else. */
  lemma UserStoresOne(st: State, step: Step, n: string)
    requires step.UserCreateService?
    ensures Next(st, step).platformRun == st.platformRun
    ensures n != step.name || n in st.store.services ==> SameAt(st.store, Next(st, step).store, n)
    ensures step.name !in st.store.services && step.name in Next(st, step).store.services ==>
              Weight(Next(st, step).store.services[step.name].meta) == 2 + |step.meta.finalizers|
  {
    hide ServiceValid, DefaultService;
  }

  lemma UserAdds(st: State, step: Step, name: string)
    requires step.UserCreateService?
    ensures Potential(Next(st, step), name) <= Potential(st, name) + 2 + |step.meta.finalizers|
  {
    hide Next, Weight, DesiredNames;
    var u, n := Next(st, step), step.name;
    var a, b := Concerned(st, name), Concerned(u, name);
    forall k ensures k != n ==> SameAt(st.store, u.store, k) {
      UserStoresOne(st, step, k);
    }
    UserStoresOne(st, step, n);
    assert PendingNames(u, name) == PendingNames(st, name);
    forall k | k in b - {n} ensures k in a - {n} {
      assert SameAt(st.store, u.store, k);
    }
    forall k | k in b - {n} ensures Charges(u, name)[k] <= Charges(st, name)[k] {
      assert SameAt(st.store, u.store, k);
    }
    hide PendingNames, Owned;
    SumShrinks(Charges(st, name), a - {n}, Charges(u, name), b - {n});
    SumSplits(Charges(u, name), b, n);
    SumSplits(Charges(st, name), a, n);
    if n in b && n in a {
      assert Charge(u, name, n) <= Charge(st, name, n) + 2 + |step.meta.finalizers|;
    } else if n in b {
      assert n !in PendingNames(st, name);
      assert Charge(u, name, n) <= 2 + |step.meta.finalizers| by { NewlyOwned(st, u, name, n); }
    }
  }

  lemma NewlyOwned(st: State, u: State, name: string, n: string)
    requires n in Concerned(u, name) && n !in Concerned(st, name) && PendingNames(u, name) == PendingNames(st, name)
    requires n in st.store.services ==> SameAt(st.store, u.store, n)
    ensures n !in st.store.services && n in u.store.services && n !in PendingNames(u, name)
  {
    hide PendingNames;
  }

  lemma SumSplits(weights: map<string, nat>, names: set<string>, n: string)
    requires names <= weights.Keys
    ensures Sum(weights, names) == Sum(weights, names - {n}) + if n in names then weights[n] else 0
  {
    if n in names {
      SumWithout(weights, names, n);
    } else {
      assert names - {n} == names;
    }
  }

  lemma UserLightensNone(st: State, step: Step, n: string)
    requires step.UserCreateService? && n in st.store.services
    ensures !GotLighter(st.store, Next(st, step).store, n)
  {
    hide Next;
    UserStoresOne(st, step, n);
  }

  /**
   * While a platform is being deleted, no step increases what is left to do, the AIService stage of
   * a run in flight included, except by what a user's own creation adds; and any progress on an
   * owned child decreases it.
   */
  lemma PotentialNeverGrows(st: State, step: Step, name: string)
    requires Inv(st) && BeingDeleted(st.store, name)
    ensures Potential(Next(st, step), name) <= Potential(st, name) + Added(st, step, name)
    ensures (exists n :: n in Owned(st.store, name) && GotLighter(st.store, Next(st, step).store, n)) ==>
              Potential(Next(st, step), name) < Potential(st, name) && Added(st, step, name) == 0
  {
    hide Inv, Next, Potential, BeingDeleted, GotLighter;
    if Quiet(st, step, name) {
      QuietNeverGrows(st, step, name);
    } else {
      UserAdds(st, step, name);
      forall n | n in Owned(st.store, name) ensures !GotLighter(st.store, Next(st, step).store, n) {
        UserLightensNone(st, step, n);
      }
    }
  }

  lemma LighterCharge(st: State, u: State, name: string, n: string)
    requires GotLighter(st.store, u.store, n) && PendingNames(u, name) <= PendingNames(st, name)
    ensures Charge(u, name, n) < Charge(st, name, n)
  {
    hide PendingNames;
  }

  function TotalAdded(st: State, steps: seq<Step>, name: string): nat {
    if steps == [] then 0
    else
      var front, last := steps[..|steps| - 1], steps[|steps| - 1];
      TotalAdded(st, front, name) + Added(Exec(st, front), last, name)
  }

  /**
   * Over every run of a deletion, whatever is in flight when it begins and whatever else happens:
   * the productive steps are at most as many as there was left to do at its start, and what users
   * added on the way.
   */
  lemma {:induction false} DeletionProgressBounded(st: State, steps: seq<Step>, name: string)
    requires Inv(st)
    requires forall j {:trigger steps[..j]} :: 0 <= j < |steps| ==> BeingDeleted(Exec(st, steps[..j]).store, name)
    ensures CountProductive(st, steps, name) + Potential(Exec(st, steps), name) <= Potential(st, name) + TotalAdded(st, steps, name)
    ensures Inv(Exec(st, steps))
    decreases |steps|
  {
    hide Inv, Next, Potential, Productive, Added, BeingDeleted;
    if steps != [] {
      var front, last := steps[..|steps| - 1], steps[|steps| - 1];
      forall j {:trigger front[..j]} | 0 <= j < |front| ensures BeingDeleted(Exec(st, front[..j]).store, name) {
        assert front[..j] == steps[..j];
      }
      DeletionProgressBounded(st, front, name);
      var u := Exec(st, front);
      assert front == steps[..|front|];
      NextSound(u, last);
      PotentialNeverGrows(u, last, name);
      if Productive(u, last, name) {
        var n := ProductiveLightens(u, last, name);
      }
    }
  }

  // ---- release from any sound state ------------------------------------------------------------------------

  /** No child, present or pending, carries the platform's own protecting finalizer. */
  predicate FreeableSoon(st: State, name: string) {
    forall n :: n in st.store.services && n in Concerned(st, name) ==> FINALIZER_PLATFORM !in st.store.services[n].meta.finalizers
  }

  /** The steps that finish a run in flight. */
  predicate Settling(step: Step) {
    step.PlatformStage? || step.PlatformPublish? || step.ServiceStage? || step.ServicePublish? || step.ServiceStatusWrite?
  }

  lemma SettlingKeepsDeletion(st: State, step: Step, name: string)
    requires Settling(step) && BeingDeleted(st.store, name) && Protected(st.store, name)
    ensures BeingDeleted(Next(st, step).store, name) && Protected(Next(st, step).store, name)
  {
    hide ServiceNext, P.StageStep, P.PublishedStatus;
    if step.PlatformStage? {
      PlatformStageKeepsPlatforms(st, step.pw);
    } else if !step.PlatformPublish? {
      ServiceStepsKeepPlatforms(st, step);
    }
  }

  lemma FreeableSoonStays(st: State, step: Step, name: string)
    requires Inv(st) && Settling(step) && BeingDeleted(st.store, name) && FreeableSoon(st, name)
    ensures FreeableSoon(Next(st, step), name)
  {
    hide Inv, Next, Concerned, BeingDeleted, WritesChildren;
    ConcernedShrinks(st, step, name);
    var t := Next(st, step).store;
    forall n | n in t.services && n in Concerned(Next(st, step), name)
      ensures FINALIZER_PLATFORM !in t.services[n].meta.finalizers
    {
      if n in st.store.services {
        StepLighter(st, step, n);
      } else {
        StepBornFree(st, step, n);
      }
    }
  }

  /** What finishing the runs in flight leaves of a deletion. */
  lemma {:induction false} SettlingRun(st: State, steps: seq<Step>, name: string)
    requires Inv(st) && BeingDeleted(st.store, name) && Protected(st.store, name) && FreeableSoon(st, name)
    requires forall j :: 0 <= j < |steps| ==> Settling(steps[j])
    ensures var u := Exec(st, steps);
            && Inv(u) && BeingDeleted(u.store, name) && Protected(u.store, name) && FreeableSoon(u, name)
            && Potential(u, name) <= Potential(st, name)
    decreases |steps|
  {
    hide Inv, Next, Potential, BeingDeleted, Protected, FreeableSoon;
    if steps != [] {
      var front, last := steps[..|steps| - 1], steps[|steps| - 1];
      SettlingRun(st, front, name);
      var u := Exec(st, front);
      NextSound(u, last);
      SettlingKeepsDeletion(u, last, name);
      FreeableSoonStays(u, last, name);
      PotentialNeverGrows(u, last, name);
    }
  }

  lemma SettleIsSettling(pw: P.World, sw: S.World)
    ensures forall j :: 0 <= j < |Settle(pw, sw)| ==> Settling(Settle(pw, sw)[j])
    ensures |Settle(pw, sw)| == |P.STAGES| + |S.STAGES| + 3
  {
  }

  lemma SettledIsFreeable(st: State, name: string)
    requires Idle(st) && FreeableSoon(st, name)
    ensures Freeable(st.store, name)
  {
  }

  /**
   * Termination from any sound state: whatever is in flight, a platform in deletion is released
   * within the steps that finish the runs in flight, what is then left to do, and one more; and that
   * is no more than what was left, pending children included, at the start.
   */
  lemma ReleasedFromAnywhere(st: State, name: string, pw: P.World, sw: S.World) returns (steps: seq<Step>)
    requires Inv(st) && BeingDeleted(st.store, name) && Protected(st.store, name) && FreeableSoon(st, name)
    ensures |steps| <= |P.STAGES| + |S.STAGES| + 3 + Potential(st, name) + 1
    ensures !Protected(Exec(st, steps).store, name)
  {
    hide Inv, Exec, Settle, Potential, Measure, BeingDeleted, Protected, FreeableSoon, Freeable, Idle;
    SettleIsSettling(pw, sw);
    SettlingRun(st, Settle(pw, sw), name);
    SettlesIdle(st, pw, sw);
    var u := Exec(st, Settle(pw, sw));
    SettledIsFreeable(u, name);
    IdlePotential(u, name);
    var rest := ReleasedWithinMeasure(u, name);
    steps := Settle(pw, sw) + rest;
    ExecAppend(st, Settle(pw, sw), rest);
  }

  // ---- the witness ----------------------------------------------------------------------------------------

  /**
   * The pending children are real: for every platform that could come up, if the user deletes it
   * between the fetch and the AIService stage of its first reconcile, that stage gives a platform
   * in deletion, which owned nothing, all its children.
   */
  lemma DeletionDuringRunAddsChild(ns: string, quantities: iset<string>, name: string, meta: Meta, spec: PlatformSpec, i: nat, w: P.World)
    requires name != "" && meta.finalizers != [] && i < |spec.features| && PL.WorldOk(w)
    requires var p := DefaultPlatform(spec);
             PlatformValid(p, quantities) && Enrich(p.splunk, ns, p.clusterDomain, w.splunk).1.Ok? && ChildAdmissible(p)
    ensures var st := Exec(Created(ns, quantities, name, meta, spec),
                           [PlatformFetch(name, {})] + PlatformStages(w, 9) + [UserDeletePlatform(name)]);
            && BeingDeleted(st.store, name) && Owned(st.store, name) == {}
            && ChildName(name, spec.features[i].name) in Owned(Next(st, PlatformStage(w)).store, name)
  {
    var st0 := Created(ns, quantities, name, meta, spec);
    CreatedStore(ns, quantities, name, meta, spec);
    CreatedHeld(ns, quantities, name, meta, spec);
    PlatformDefaultsStable(spec);
    DefaultKeepsPlan(spec);
    assert PL.Startable(st0.store, name, w, quantities);
    hide PlatformValid, DefaultPlatform, ChildAdmissible, Enrich, PL.Startable, PL.WorldOk, Exec, PL.Midway, ChildName, Next, Owned, Idle;
    var r, st := RunThenDelete(st0, name, w, quantities);
    assert NoZombies(st.store) by {
      hide Inv, NoZombies, Admitted, PlatformStages;
      Invariant(ns, quantities, [UserCreatePlatform(name, meta, spec)]);
      InvariantContinues(st0, [PlatformFetch(name, {})] + PlatformStages(w, 9) + [UserDeletePlatform(name)]);
      InvStore(st);
    }
    LastStageWrites(st0.store, st.store, r, w, quantities, i);
    assert Owned(st.store, name) == {} by { NothingOwned(st.store, name); }
    NextIsStage(st, w);
  }

  lemma NothingOwned(s: Store, name: string)
    requires s.services == map[]
    ensures Owned(s, name) == {}
  {
  }

  lemma NextIsStage(st: State, w: P.World)
    requires st.platformRun.Some? && !P.Stopped(st.platformRun.value)
    ensures Next(st, PlatformStage(w)).store == P.StageStep(st.store, st.platformRun.value, w).0
  {
    hide P.StageStep;
  }

  /** Fetch, nine stages, and the user's deletion. */
  lemma RunThenDelete(st0: State, name: string, w: P.World, quantities: iset<string>) returns (r: P.Run, st: State)
    requires Idle(st0) && PL.Startable(st0.store, name, w, quantities) && PL.WorldOk(w) && name in st0.store.platforms
    requires !st0.store.platforms[name].meta.deleting && st0.store.platforms[name].meta.finalizers != [] && st0.store.services == map[]
    ensures st == Exec(st0, [PlatformFetch(name, {})] + PlatformStages(w, 9) + [UserDeletePlatform(name)])
    ensures st.platformRun == Some(r) && r.name == name && r.next == 9 && r.outcome.Ok? && !P.Stopped(r)
    ensures w.ray.Some? && r.p == PL.Prepared(st0.store, name, w)
    ensures BeingDeleted(st.store, name) && st.store.services == map[] && st.store.ns == st0.store.ns
  {
    var a, b, c := [PlatformFetch(name, {})], PlatformStages(w, 9), [UserDeletePlatform(name)];
    hide PL.Startable, PL.WorldOk, Exec, PL.Midway, Next, DeletePlatform, BeingDeleted, P.Stopped, PlatformStages, PL.Prepared;
    ExecAppend(st0, a, b);
    ExecAppend(st0, a + b, c);
    ExecOne(st0, PlatformFetch(name, {}));
    FetchStarts(st0, name);
    StartsMidway(st0.store, name, w);
    var st1 := Exec(st0, a);
    PL.StagesPass(st1, st0.store, w, quantities, 9);
    var st2 := Exec(st1, b);
    r := st2.platformRun.value;
    PL.MidwayRuns(st0.store, st2.store, r, w);
    PL.MidwayEnd(st0.store, st2.store, r, w);
    ExecOne(st2, UserDeletePlatform(name));
    DeletionOnlyMarks(st2, name);
    st := Exec(st2, c);
  }

  lemma FetchStarts(st: State, name: string)
    requires st.platformRun.None? && name in st.store.platforms && !st.store.platforms[name].meta.deleting
    ensures Next(st, PlatformFetch(name, {})) == st.(platformRun := Some(P.Start(name, st.store.platforms[name])))
  {
  }

  lemma CreatedHeld(ns: string, quantities: iset<string>, name: string, meta: Meta, spec: PlatformSpec)
    requires name != "" && PlatformValid(DefaultPlatform(spec), quantities)
    ensures var s := Created(ns, quantities, name, meta, spec).store;
            name in s.platforms && s.platforms[name].meta.finalizers == meta.finalizers
  {
    hide PlatformValid, DefaultPlatform;
    ExecOne(Empty(ns, quantities), UserCreatePlatform(name, meta, spec));
  }

  lemma StartsMidway(s: Store, name: string, w: P.World)
    requires name in s.platforms && PL.WorldOk(w)
    ensures PL.Midway(s, s, P.Start(name, s.platforms[name]), w)
  {
    hide P.ValidatePlatform, PL.Prepared, P.WellFormed;
    P.StartWellFormed(name, s.platforms[name]);
  }

  /** The AIService stage of a prepared run, on a store without AIServices. */
  lemma LastStageWrites(s: Store, t: Store, r: P.Run, w: P.World, quantities: iset<string>, i: nat)
    requires PL.Startable(s, r.name, w, quantities) && PL.WorldOk(w) && ChildAdmissible(s.platforms[r.name].spec)
    requires r.p == PL.Prepared(s, r.name, w) && r.next == 9 && r.outcome.Ok?
    requires t.services == map[] && t.ns == s.ns && NoZombies(t) && i < |s.platforms[r.name].spec.features|
    ensures ChildName(r.name, s.platforms[r.name].spec.features[i].name) in Owned(P.StageStep(t, r, w).0, r.name)
  {
    var fs := s.platforms[r.name].spec.features;
    PL.PreparedKeeps(s, r.name, w);
    assert w.failing == {};
    forall k | 0 <= k < |fs| ensures Accepted(t, r.name, r.p, fs[k], {}) {
      PL.PreparedBuildsAdmitted(s, r.name, w, quantities, fs[k]);
      hide PL.Startable, PL.WorldOk, PL.Prepared, ServiceValid, DefaultService, BuildService, ChildAdmissible, ChildName;
    }
    hide PL.Startable, PL.WorldOk, PL.Prepared, Accepted, UpsertAll, ReconcileFeatures, ChildAdmissible, FeaturesSettled, P.StageStep, ChildName,
      Owned, NoZombies;
    UpsertsSucceedIff(t, r.name, r.p, fs, {});
    PL.FeaturesSucceed(t, r.name, r.p, w);
    FeaturesConverge(t, r.name, r.p, w.failing, w.reached);
    SettledOwns(t, ReconcileFeatures(t, r.name, r.p, w.failing, w.reached).0, r.name, r.p, i);
    ChildStageIs(t, r, w);
  }

  lemma ChildStageIs(t: Store, r: P.Run, w: P.World)
    requires r.next == 9 && r.outcome.Ok?
    ensures P.StageStep(t, r, w).0 == ReconcileFeatures(t, r.name, r.p, w.failing, w.reached).0
  {
    hide ReconcileFeatures;
    assert P.STAGES[9] == P.AIService;
  }

  lemma SettledOwns(s: Store, t: Store, name: string, p: Platform, i: nat)
    requires FeaturesSettled(s, t, name, p) && i < |p.spec.features|
    ensures ChildName(name, p.spec.features[i].name) in Owned(t, name)
  {
    hide ChildWritten, Carried, NewBorn, DefaultService, BuildService, ChildName;
    var n := ChildName(name, p.spec.features[i].name);
    assert n in DesiredNames(name, p.spec.features);
    assert Converged(t, name, p, LastFor(name, p.spec.features, n).value, n, s.services);
  }
}
