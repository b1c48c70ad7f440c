/** A bounded schedule that brings a platform and its SAIA child up from any reachable state. */
module Liveness {
  import opened Api
  import opened Names
  import opened Admission
  import opened ApiServer
  import opened Features
  import opened Protocol
  import opened Safety
  import opened Readiness
  import opened Turns
  import opened Immutability
  import P = PlatformRun
  import S = SaiaRun
  import PL = PlatformLiveness
  import SL = ServiceLiveness
  import D = Deletion

  const READY_FLAGS := [Flag("Ready", true)]
  const COMPLETE_FLAGS := [Flag("Complete", true)]

  /** Platform, child, certificate issued, child, Job completed, child. */
  function BringUpChild(name: string, child: string, pw: P.World, sw: S.World): seq<Step> {
    PlatformTurn(name, pw)
    + (ServiceTurn(child, sw) + [CertificateFlags(CertificateName(child), READY_FLAGS)])
    + (ServiceTurn(child, sw) + [JobFlags(JobName(child), COMPLETE_FLAGS)])
    + ServiceTurn(child, sw)
  }

  /** The child, then the platform once more. */
  function BringUp(name: string, child: string, pw: P.World, sw: S.World): seq<Step> {
    BringUpChild(name, child, pw, sw) + PlatformTurn(name, pw)
  }

  /** The SAIA child, if it exists, is not going away and its schema Job has not failed. */
  predicate ChildRecoverable(s: Store, child: string) {
    && (child in s.services ==> !s.services[child].meta.deleting)
    && (JobName(child) in s.jobs ==> S.JobVerdict(s.jobs[JobName(child)].flags) != S.Failed)
  }

  /** No AIService of this platform other than the child shows an error. */
  predicate OthersQuiet(s: Store, name: string, features: seq<Feature>, child: string) {
    forall n :: n in s.services && n != child && (n in Owned(s, name) || n in DesiredNames(name, features)) ==>
      !HasError(s.services[n].status.conditions)
  }

  lemma {:induction false} InvariantContinues(st: State, steps: seq<Step>)
    requires Inv(st)
    ensures Inv(Exec(st, steps))
    decreases |steps|
  {
    hide Inv, Next;
    if steps != [] {
      InvariantContinues(st, steps[..|steps| - 1]);
      NextSound(Exec(st, steps[..|steps| - 1]), steps[|steps| - 1]);
    }
  }

  lemma NoRuns(st: State)
    requires Inv(st)
    ensures Admitted(st.store) && NoZombies(st.store) && ChildrenSound(st.store.services, st.history)
  {
    hide Admitted, NoZombies, ChildrenSound, PlatformsAdmitted, SelectorsMatch, JobsBalanced, UidsBelow;
  }

  // ---- the first platform turn makes the child ready to run ------------------------------------

  lemma ChildStarts(s: Store, t: Store, name: string, i: nat, pw: P.World, sw: S.World, quantities: iset<string>, h: History)
    requires PL.PlatformOk(s, name, pw, quantities) && PL.WorldOk(pw) && sw.splunk == pw.splunk
    requires i < |s.platforms[name].spec.features| && s.platforms[name].spec.features[i].name == "saia"
    requires ChildRecoverable(s, ChildName(name, "saia")) && ChildrenSound(s.services, h)
    requires PL.TurnOutcome(s, t, name, pw)
    ensures SL.ChildOk(t, ChildName(name, "saia"), sw)
    ensures var v := t.services[ChildName(name, "saia")];
            Clean(v.meta) <==> (ChildName(name, "saia") in s.services ==> Clean(s.services[ChildName(name, "saia")].meta))
  {
    var child, p := ChildName(name, "saia"), PL.Prepared(s, name, pw);
    var f := s.platforms[name].spec.features[i];
    PL.PreparedKeeps(s, name, pw);
    assert FeatureNamesDistinct(p.spec.features) && ChildAdmissible(s.platforms[name].spec);
    PL.PreparedBuildsAdmitted(s, name, pw, quantities, f);
    EnrichedIsReady(s, name, pw, quantities);
    PL.TurnOutcomeIs(s, t, name, pw);
    PL.GateOpens(s, t, name, pw);
    hide PL.PlatformOk, PL.WorldOk, PL.Prepared, FeaturesSettled, PL.TurnOutcome, ServiceValid, DefaultService, BuildService, FeatureNamesDistinct;
    ConvergedChild(s, t, name, p, i);
    DefaultedIsAdmitted(BuildService(name, s.ns, p, f));
    BuiltFields(name, s.ns, p, f);
    StartsOk(s, t, child, sw, h);
  }

  /** The child as a settled feature stage leaves it. */
  lemma ConvergedChild(s: Store, t: Store, name: string, p: Platform, i: nat)
    requires FeaturesSettled(s, t, name, p) && FeatureNamesDistinct(p.spec.features) && i < |p.spec.features|
    ensures var f := p.spec.features[i];
            var child := ChildName(name, f.name);
            && child in t.services && t.services[child].spec == DefaultService(BuildService(name, t.ns, p, f))
            && (if child in s.services then Carried(t.services[child], s.services[child]) else NewBorn(t.services[child]))
  {
    hide DefaultService, BuildService, ChildWritten, Carried, NewBorn;
    var f := p.spec.features[i];
    var child := ChildName(name, f.name);
    LastForDistinct(name, p.spec.features, i);
    assert child in DesiredNames(name, p.spec.features);
    assert Converged(t, name, p, f, child, s.services);
  }

  lemma StartsOk(s: Store, t: Store, child: string, w: S.World, h: History)
    requires child in t.services && ChildRecoverable(s, child) && ChildrenSound(s.services, h) && t.jobs == s.jobs
    requires if child in s.services then Carried(t.services[child], s.services[child]) else NewBorn(t.services[child])
    requires var v := t.services[child].spec;
             && SpecAdmitted(v) && v.feature.name == "saia" && SL.SplunkReady(v.splunk, w.splunk) && S.GateError(t, v.platformRef).None?
    ensures SL.ChildOk(t, child, w)
    ensures Clean(t.services[child].meta) <==> (child in s.services ==> Clean(s.services[child].meta))
  {
    hide SpecAdmitted, SL.SplunkReady, S.GateError, S.JobVerdict, JobName, ChildSound;
    if child in s.services {
      SoundHasJobId(child, s.services[child], h);
    }
  }

  lemma EnrichedIsReady(s: Store, name: string, w: P.World, quantities: iset<string>)
    requires PL.PlatformOk(s, name, w, quantities) && PL.WorldOk(w)
    ensures SL.SplunkReady(PL.Prepared(s, name, w).spec.splunk, w.splunk)
  {
    hide PlatformValid, DefaultPlatform, PL.AllUpsertable, FeatureNamesDistinct, SplunkEndpoint;
    var p := s.platforms[name];
    assert p.spec.objectStorage.path != "" by { PL.AdmittedHasPath(p.spec, quantities); }
  }

  lemma BuiltFields(name: string, ns: string, p: Platform, f: Feature)
    ensures var v := DefaultService(BuildService(name, ns, p, f));
            v.feature == f && v.splunk == p.spec.splunk && v.platformRef == PlatformRef(name, ns) && v.taskVolume == p.spec.objectStorage
  {
  }

  // ---- a child turn followed by what it waited for --------------------------------------------------

  /** What the steps for the child leave alone. */
  predicate BesideChild(s: Store, t: Store, child: string) {
    && t.ns == s.ns && t.platforms == s.platforms
    && child in s.services && child in t.services
    && t.services == s.services[child := t.services[child]]
    && SL.SameMeta(s.services[child].meta, t.services[child].meta)
    && SL.SameCore(s.services[child].spec, t.services[child].spec)
  }

  lemma BesideItself(s: Store, child: string)
    requires child in s.services
    ensures BesideChild(s, s, child)
  {
    assert s.services == s.services[child := s.services[child]];
  }

  lemma CertificateRound(st: State, child: string, w: S.World)
    requires Idle(st) && SL.ChildOk(st.store, child, w) && SL.WorldOk(w)
    ensures var u := Exec(st, ServiceTurn(child, w) + [CertificateFlags(CertificateName(child), READY_FLAGS)]);
            && Idle(u) && u.quantities == st.quantities && SL.ChildOk(u.store, child, w) && BesideChild(st.store, u.store, child)
            && SL.CertificateOk(u.store, child, u.store.services[child].spec.mtls)
  {
    var step := CertificateFlags(CertificateName(child), READY_FLAGS);
    D.ExecAppend(st, ServiceTurn(child, w), [step]);
    var m := Exec(st, ServiceTurn(child, w));
    ExecOne(m, step);
    hide SL.ChildOk, SL.WorldOk, Exec, ServiceTurn, SpecAdmitted, HasError, IsConditionTrue, S.ForeignAnnotations, CertificateName;
    SL.ServiceTurnOutcome(st, child, w);
    CertificateIssued(m.store, child, w);
  }

  lemma CertificateIssued(s: Store, child: string, w: S.World)
    requires SL.ChildOk(s, child, w) && child in s.services
    requires SL.CertificateOk(s, child, s.services[child].spec.mtls) || CertificateName(child) in s.certificates
    ensures var t := EnvironmentStore(s, CertificateFlags(CertificateName(child), READY_FLAGS), iset{});
            SL.ChildOk(t, child, w) && SL.CertificateOk(t, child, t.services[child].spec.mtls)
  {
    hide SpecAdmitted, HecToken, CertificateName, JobName, S.JobVerdict, S.GateError;
    var t := EnvironmentStore(s, CertificateFlags(CertificateName(child), READY_FLAGS), iset{});
    SL.SameGate(s, t, s.services[child].spec.platformRef);
  }

  lemma FrameBeside(s: Store, t: Store, child: string)
    requires SL.TurnOutcome(s, t, child)
    ensures BesideChild(s, t, child)
  {
    hide HasError, IsConditionTrue, S.ForeignAnnotations, PanicTrace, S.JobVerdict, JobName, CertificateName, SpecAdmitted, S.HasFlag;
  }

  /** With its certificate in place the child's turn leaves a Job it has asked for, and one that has not failed. */
  lemma TurnAsksForJob(s: Store, t: Store, child: string)
    requires SL.TurnOutcome(s, t, child) && SL.CertificateOk(s, child, s.services[child].spec.mtls)
    ensures child in t.services && SL.CertificateOk(t, child, t.services[child].spec.mtls)
    ensures t.services[child].status.schemaJobId == JobName(child) && JobName(child) in t.jobs
  {
    hide HasError, IsConditionTrue, S.ForeignAnnotations, PanicTrace, S.JobVerdict, JobName, SpecAdmitted, SL.CertificateOk;
  }

  lemma JobRound(st: State, child: string, w: S.World)
    requires Idle(st) && SL.ChildOk(st.store, child, w) && SL.WorldOk(w)
    requires SL.CertificateOk(st.store, child, st.store.services[child].spec.mtls)
    ensures var u := Exec(st, ServiceTurn(child, w) + [JobFlags(JobName(child), COMPLETE_FLAGS)]);
            && Idle(u) && u.quantities == st.quantities && SL.ChildOk(u.store, child, w) && BesideChild(st.store, u.store, child)
            && SL.CertificateOk(u.store, child, u.store.services[child].spec.mtls)
            && SL.JobDone(u.store, child, u.store.services[child])
  {
    var step := JobFlags(JobName(child), COMPLETE_FLAGS);
    D.ExecAppend(st, ServiceTurn(child, w), [step]);
    var m := Exec(st, ServiceTurn(child, w));
    ExecOne(m, step);
    assert child in st.store.services;
    hide SL.ChildOk, SL.WorldOk, Exec, ServiceTurn, SL.CertificateOk, SL.JobDone, SL.TurnOutcome, BesideChild, JobName;
    SL.ServiceTurnOutcome(st, child, w);
    FrameBeside(st.store, m.store, child);
    TurnAsksForJob(st.store, m.store, child);
    JobCompleted(m.store, child, w);
    SameBeside(st.store, m.store, Next(m, step).store, child);
  }

  lemma SameBeside(s: Store, t: Store, u: Store, child: string)
    requires BesideChild(s, t, child) && u == t.(jobs := u.jobs)
    ensures BesideChild(s, u, child)
  {
  }

  lemma JobCompleted(s: Store, child: string, w: S.World)
    requires SL.ChildOk(s, child, w) && child in s.services
    requires SL.CertificateOk(s, child, s.services[child].spec.mtls)
    requires s.services[child].status.schemaJobId == JobName(child) && JobName(child) in s.jobs
    ensures var t := EnvironmentStore(s, JobFlags(JobName(child), COMPLETE_FLAGS), iset{});
            && SL.ChildOk(t, child, w) && SL.CertificateOk(t, child, t.services[child].spec.mtls)
            && SL.JobDone(t, child, t.services[child])
  {
    hide SpecAdmitted, HecToken, CertificateName, JobName, S.GateError;
    var t := EnvironmentStore(s, JobFlags(JobName(child), COMPLETE_FLAGS), iset{});
    SL.SameGate(s, t, s.services[child].spec.platformRef);
  }

  lemma LastRound(st: State, child: string, w: S.World)
    requires Idle(st) && SL.ChildOk(st.store, child, w) && SL.WorldOk(w)
    requires SL.CertificateOk(st.store, child, st.store.services[child].spec.mtls)
    requires SL.JobDone(st.store, child, st.store.services[child])
    ensures var u := Exec(st, ServiceTurn(child, w));
            && Idle(u) && u.quantities == st.quantities && BesideChild(st.store, u.store, child)
            && !HasError(u.store.services[child].status.conditions)
            && (IsConditionTrue(u.store.services[child].status.conditions, "Ready") <==> Clean(st.store.services[child].meta))
            && (Clean(st.store.services[child].meta) || PanicTrace(u.store.services[child]))
  {
    hide SL.ChildOk, SL.WorldOk, Exec, ServiceTurn, SpecAdmitted, HasError, IsConditionTrue, S.ForeignAnnotations, SL.CertificateOk, SL.JobDone;
    SL.ServiceTurnOutcome(st, child, w);
  }

  lemma BesideTransitive(s: Store, t: Store, u: Store, child: string)
    requires BesideChild(s, t, child) && BesideChild(t, u, child)
    ensures BesideChild(s, u, child)
    ensures Clean(s.services[child].meta) <==> Clean(u.services[child].meta)
  {
  }

  /** The three child rounds: the child stops showing an error, and is Ready iff its annotations are clean. */
  lemma ChildRounds(st: State, child: string, w: S.World)
    requires Idle(st) && SL.ChildOk(st.store, child, w) && SL.WorldOk(w)
    ensures var u := Exec(Exec(Exec(st,
              ServiceTurn(child, w) + [CertificateFlags(CertificateName(child), READY_FLAGS)]),
              ServiceTurn(child, w) + [JobFlags(JobName(child), COMPLETE_FLAGS)]),
              ServiceTurn(child, w));
            && Idle(u) && u.quantities == st.quantities && BesideChild(st.store, u.store, child)
            && !HasError(u.store.services[child].status.conditions)
            && (IsConditionTrue(u.store.services[child].status.conditions, "Ready") <==> Clean(st.store.services[child].meta))
            && (Clean(st.store.services[child].meta) || PanicTrace(u.store.services[child]))
  {
    hide SL.ChildOk, SL.WorldOk, Exec, ServiceTurn, HasError, IsConditionTrue, S.ForeignAnnotations, SL.CertificateOk, SL.JobDone, SL.SameCore,
      SL.SameMeta, Idle, CertificateName, JobName;
    var a := Exec(st, ServiceTurn(child, w) + [CertificateFlags(CertificateName(child), READY_FLAGS)]);
    CertificateRound(st, child, w);
    var b := Exec(a, ServiceTurn(child, w) + [JobFlags(JobName(child), COMPLETE_FLAGS)]);
    JobRound(a, child, w);
    LastRound(b, child, w);
    BesideTransitive(st.store, a.store, b.store, child);
    BesideTransitive(st.store, b.store, Exec(b, ServiceTurn(child, w)).store, child);
  }

  // ---- the second platform turn ----------------------------------------------------------------------

  lemma StillOk(s: Store, t: Store, u: Store, name: string, w: P.World, quantities: iset<string>)
    requires PL.PlatformOk(s, name, w, quantities) && PL.WorldOk(w) && PL.TurnOutcome(s, t, name, w)
    requires BesideChild(t, u, ChildName(name, "saia"))
    ensures PL.PlatformOk(u, name, w, quantities)
  {
    hide PlatformValid, DefaultPlatform, Enrich, ChildAdmissible, S.GateError, FeaturesSettled, PL.Prepared, IsConditionTrue, PL.AnyError,
      HasError, ChildName, FeatureNamesDistinct;
    var p, child := s.platforms[name].spec, ChildName(name, "saia");
    PL.PreparedKeeps(s, name, w);
    forall i | 0 <= i < |p.features| ensures PL.Upsertable(u, name, p, p.features[i]) {
      OwnUpsertable(s, t, u, name, PL.Prepared(s, name, w), i, child);
    }
    assert PL.AllUpsertable(u, name, p, p.features);
  }

  lemma OwnUpsertable(s: Store, t: Store, u: Store, name: string, p: Platform, i: nat, child: string)
    requires FeaturesSettled(s, t, name, p) && i < |p.spec.features| && BesideChild(t, u, child)
    ensures PL.Upsertable(u, name, p.spec, p.spec.features[i])
  {
    var n := ChildName(name, p.spec.features[i].name);
    assert n in DesiredNames(name, p.spec.features);
    var f := LastFor(name, p.spec.features, n).value;
    assert Converged(t, name, p, f, n, s.services);
    BuiltFields(name, t.ns, p, f);
    hide DefaultService, BuildService, ChildName, Carried, NewBorn, ChildWritten, FeaturesSettled;
  }

  lemma QuietAfterTurn(s: Store, t: Store, name: string, p: Platform, child: string)
    requires FeaturesSettled(s, t, name, p) && OthersQuiet(s, name, p.spec.features, child)
    ensures OthersQuiet(t, name, p.spec.features, child)
  {
    hide DesiredNames, LastFor, HasError, ConvergedValue, ChildWritten;
    forall n | n in t.services && n != child && (n in Owned(t, name) || n in DesiredNames(name, p.spec.features))
      ensures !HasError(t.services[n].status.conditions)
    {
      if n in DesiredNames(name, p.spec.features) {
        assert Converged(t, name, p, LastFor(name, p.spec.features, n).value, n, s.services);
        EmptyHasNoError();
      } else {
        assert n in Owned(s, name);
      }
    }
  }

  lemma EmptyHasNoError()
    ensures !HasError([])
  {
  }

  lemma QuietBeside(s: Store, t: Store, name: string, features: seq<Feature>, child: string)
    requires OthersQuiet(s, name, features, child) && BesideChild(s, t, child)
    ensures OthersQuiet(t, name, features, child)
  {
    hide HasError, DesiredNames, SL.SameCore;
  }

  lemma NothingWrong(s: Store, t: Store, name: string, p: Platform, child: string)
    requires FeaturesSettled(s, t, name, p) && OthersQuiet(s, name, p.spec.features, child)
    requires child in DesiredNames(name, p.spec.features) && child in s.services && !HasError(s.services[child].status.conditions)
    ensures !PL.AnyError(t, name) && child in t.services && t.services[child].status == s.services[child].status
  {
    hide DesiredNames, LastFor, HasError, ConvergedValue, ChildWritten;
    QuietAfterTurn(s, t, name, p, child);
    assert Converged(t, name, p, LastFor(name, p.spec.features, child).value, child, s.services);
  }

  /** The schedule up to the last platform turn: the child is Ready, or shows the trace of its panic. */
  lemma ChildBroughtUp(st: State, name: string, i: nat, pw: P.World, sw: S.World)
    requires Inv(st) && Idle(st)
    requires PL.PlatformOk(st.store, name, pw, st.quantities) && PL.WorldOk(pw) && SL.WorldOk(sw) && sw.splunk == pw.splunk
    requires var fs := st.store.platforms[name].spec.features;
             && i < |fs| && fs[i].name == "saia"
             && ChildRecoverable(st.store, ChildName(name, "saia")) && OthersQuiet(st.store, name, fs, ChildName(name, "saia"))
    ensures var child := ChildName(name, "saia");
            var u := Exec(st, BringUpChild(name, child, pw, sw));
            && Idle(u) && Inv(u) && u.quantities == st.quantities
            && PL.PlatformOk(u.store, name, pw, u.quantities)
            && u.store.platforms[name].spec.features == st.store.platforms[name].spec.features
            && OthersQuiet(u.store, name, u.store.platforms[name].spec.features, child)
            && child in u.store.services && !HasError(u.store.services[child].status.conditions)
            && (IsConditionTrue(u.store.services[child].status.conditions, "Ready") <==>
                  (child in st.store.services ==> Clean(st.store.services[child].meta)))
            && ((child in st.store.services ==> Clean(st.store.services[child].meta)) || PanicTrace(u.store.services[child]))
  {
    var child, fs := ChildName(name, "saia"), st.store.platforms[name].spec.features;
    hide Inv, PL.PlatformOk, PL.WorldOk, SL.WorldOk, ChildRecoverable, OthersQuiet, Exec, PlatformTurn, ServiceTurn, PL.TurnOutcome,
      FeaturesSettled, IsConditionTrue, HasError, DesiredNames, ChildName, BesideChild, SL.ChildOk, CertificateName, JobName,
      Admitted, NoZombies, ChildrenSound, S.ForeignAnnotations, PL.Prepared, PL.AnyError, PanicTrace;
    var turn := PlatformTurn(name, pw);
    var a := ServiceTurn(child, sw) + [CertificateFlags(CertificateName(child), READY_FLAGS)];
    var b := ServiceTurn(child, sw) + [JobFlags(JobName(child), COMPLETE_FLAGS)];
    var c := ServiceTurn(child, sw);
    SplitBringUp(st, turn, a, b, c);
    NoRuns(st);
    PL.PlatformTurnOutcome(st, name, pw);
    var st1 := Exec(st, turn);
    ChildStarts(st.store, st1.store, name, i, pw, sw, st.quantities, st.history);
    ChildRounds(st1, child, sw);
    var st2 := Exec(Exec(Exec(st1, a), b), c);
    StillOk(st.store, st1.store, st2.store, name, pw, st.quantities);
    InvariantContinues(st, turn + a + b + c);
    StaysQuiet(st.store, st1.store, st2.store, name, fs, child, pw);
  }

  /** The schedule from a state that satisfies the invariant and has no run in flight. */
  lemma BringUpFrom(st: State, name: string, i: nat, pw: P.World, sw: S.World)
    requires Inv(st) && Idle(st)
    requires PL.PlatformOk(st.store, name, pw, st.quantities) && PL.WorldOk(pw) && SL.WorldOk(sw) && sw.splunk == pw.splunk
    requires var fs := st.store.platforms[name].spec.features;
             && i < |fs| && fs[i].name == "saia"
             && ChildRecoverable(st.store, ChildName(name, "saia")) && OthersQuiet(st.store, name, fs, ChildName(name, "saia"))
    ensures var child := ChildName(name, "saia");
            var u := Exec(st, BringUp(name, child, pw, sw)).store;
            && name in u.platforms && IsConditionTrue(u.platforms[name].status.conditions, "Ready")
            && child in u.services
            && (IsConditionTrue(u.services[child].status.conditions, "Ready") <==>
                  (child in st.store.services ==> Clean(st.store.services[child].meta)))
            && ((child in st.store.services ==> Clean(st.store.services[child].meta)) || PanicTrace(u.services[child]))
  {
    var child, fs := ChildName(name, "saia"), st.store.platforms[name].spec.features;
    assert child in DesiredNames(name, fs) by { assert child == ChildName(name, fs[i].name); }
    hide Inv, PL.PlatformOk, PL.WorldOk, SL.WorldOk, ChildRecoverable, OthersQuiet, Exec, PlatformTurn, BringUpChild, PL.TurnOutcome,
      IsConditionTrue, HasError, DesiredNames, ChildName, Admitted, NoZombies, ChildrenSound, S.ForeignAnnotations;
    ChildBroughtUp(st, name, i, pw, sw);
    var mid := Exec(st, BringUpChild(name, child, pw, sw));
    D.ExecAppend(st, BringUpChild(name, child, pw, sw), PlatformTurn(name, pw));
    NoRuns(mid);
    PL.PlatformTurnOutcome(mid, name, pw);
    LastTurn(mid.store, Exec(mid, PlatformTurn(name, pw)).store, name, fs, child, pw);
  }

  lemma SplitBringUp(st: State, turn: seq<Step>, a: seq<Step>, b: seq<Step>, c: seq<Step>)
    ensures Exec(st, turn + a + b + c) == Exec(Exec(Exec(Exec(st, turn), a), b), c)
  {
    hide Exec;
    D.ExecAppend(st, turn, a);
    D.ExecAppend(st, turn + a, b);
    D.ExecAppend(st, turn + a + b, c);
  }

  lemma StaysQuiet(s: Store, t: Store, u: Store, name: string, fs: seq<Feature>, child: string, w: P.World)
    requires PL.TurnOutcome(s, t, name, w) && BesideChild(t, u, child)
    requires name in s.platforms && fs == s.platforms[name].spec.features && OthersQuiet(s, name, fs, child)
    ensures name in u.platforms && u.platforms[name].spec.features == fs && child in u.services && OthersQuiet(u, name, fs, child)
  {
    hide DesiredNames, HasError, FeaturesSettled, OthersQuiet, IsConditionTrue, S.GateError, PL.Prepared, PL.AnyError, SL.SameCore, SL.SameMeta;
    PL.PreparedKeeps(s, name, w);
    QuietAfterTurn(s, t, name, PL.Prepared(s, name, w), child);
    QuietBeside(t, u, name, fs, child);
  }

  lemma LastTurn(u: Store, v: Store, name: string, fs: seq<Feature>, child: string, w: P.World)
    requires PL.TurnOutcome(u, v, name, w)
    requires name in u.platforms && fs == u.platforms[name].spec.features && child in DesiredNames(name, fs)
    requires OthersQuiet(u, name, fs, child) && child in u.services && !HasError(u.services[child].status.conditions)
    ensures name in v.platforms && IsConditionTrue(v.platforms[name].status.conditions, "Ready")
    ensures child in v.services && v.services[child].status == u.services[child].status
  {
    hide DesiredNames, HasError, FeaturesSettled, OthersQuiet, IsConditionTrue, S.GateError, PL.Prepared, PL.AnyError;
    PL.PreparedKeeps(u, name, w);
    NothingWrong(u, v, name, PL.Prepared(u, name, w), child);
  }

  // ---- from every reachable state ---------------------------------------------------------------------------

  /** Finishing what is in flight brings any sound state to one without a run. */
  lemma SettlesIdle(st: State, pw: P.World, sw: S.World)
    requires Inv(st)
    ensures Idle(Exec(st, Settle(pw, sw))) && Inv(Exec(st, Settle(pw, sw)))
  {
    hide Inv, Exec, PlatformStages, ServiceStages;
    var a := PlatformStages(pw, |P.STAGES|) + [PlatformPublish(true)];
    var b := ServiceStages(sw, |S.STAGES|) + [ServicePublish(true), ServiceStatusWrite(true)];
    D.ExecAppend(st, a, b);
    PlatformSettles(st, pw);
    InvariantContinues(st, a);
    ServiceSettles(Exec(st, a), sw);
    InvariantContinues(st, Settle(pw, sw));
  }

  lemma SettleIsFaithful(pw: P.World, sw: S.World, name: string, path: string, f: string)
    ensures forall j :: 0 <= j < |Settle(pw, sw)| ==> Faithful(Settle(pw, sw)[j], name, path, f)
  {
  }

  /** The platform's children, as far as they exist, are its own or nobody's. */
  predicate ChildrenClaimable(s: Store, name: string, fs: seq<Feature>) {
    forall i :: 0 <= i < |fs| && ChildName(name, fs[i].name) in s.services ==>
      Claimable(s.services[ChildName(name, fs[i].name)].meta, PlatformOwner(name))
  }

  /** What bring-up asks of the store: a live platform with admissible, claimable children. */
  ghost predicate Promising(s: Store, name: string, w: P.World) {
    && name != "" && name in s.platforms
    && var p := s.platforms[name];
    && !p.meta.deleting
    && Enrich(p.spec.splunk, s.ns, p.spec.clusterDomain, w.splunk).1.Ok?
    && ChildAdmissible(p.spec)
    && ChildrenClaimable(s, name, p.spec.features)
  }

  /** Over a run with faithful users, the children's immutable fields need no assumption of their own. */
  lemma PromisingIsOk(ns: string, quantities: iset<string>, steps: seq<Step>, name: string, path: string, w: P.World)
    requires var st := Exec(Empty(ns, quantities), steps);
             && Promising(st.store, name, w)
             && var fs := st.store.platforms[name].spec.features;
             Hyphenless(fs) && forall i, j :: 0 <= i < |fs| && 0 <= j < |steps| ==> Faithful(steps[j], name, path, fs[i].name)
    ensures var st := Exec(Empty(ns, quantities), steps);
            PL.PlatformOk(st.store, name, w, quantities)
  {
    var st := Exec(Empty(ns, quantities), steps);
    var p := st.store.platforms[name].spec;
    hide Exec, Faithful, PlatformValid, DefaultPlatform, ChildAdmissible, Enrich, ChildName;
    Invariant(ns, quantities, steps);
    QuantitiesStay(Empty(ns, quantities), steps);
    AdmittedPlatform(st, name);
    forall i | 0 <= i < |p.features| ensures PL.Upsertable(st.store, name, p, p.features[i]) {
      KeySoundOverRuns(ns, quantities, steps, name, path, p.features[i].name);
    }
    assert PL.AllUpsertable(st.store, name, p, p.features);
  }

  lemma AdmittedPlatform(st: State, name: string)
    requires Inv(st) && name in st.store.platforms
    ensures var p := st.store.platforms[name].spec;
            PlatformValid(p, st.quantities) && p == DefaultPlatform(p) && FeatureNamesDistinct(p.features)
  {
    assert PlatformsAdmitted(st.store, st.quantities) by {
      hide Admitted, NoZombies, ChildrenSound, SelectorsMatch, JobsBalanced, UidsBelow, PlatformsAdmitted;
    }
    assert PlatformValid(st.store.platforms[name].spec, st.quantities);
    hide Inv, DefaultPlatform, StorageValid, SplunkValid, VectorDbValid, IngressValid, PlatformMtlsValid;
  }

  lemma {:induction false} QuantitiesStay(st: State, steps: seq<Step>)
    ensures Exec(st, steps).quantities == st.quantities
    decreases |steps|
  {
    if steps != [] {
      QuantitiesStay(st, steps[..|steps| - 1]);
      hide EnvironmentStore, PlatformNext, ServiceNext, Exec;
      QuantitiesStep(Exec(st, steps[..|steps| - 1]), steps[|steps| - 1]);
    }
  }

  lemma QuantitiesStep(st: State, step: Step)
    ensures Next(st, step).quantities == st.quantities
  {
    hide P.StageStep, S.StageStep, FinalizePlatform, FinalizeService, PublishPlatform, UpdateServiceStatus, EnvironmentStore, ReadsCompleted,
      S.CreatesJob;
  }

  /**
   * Bring-up. From every reachable state of a run with faithful users, once the runs in flight have
   * finished, in a world where nothing outside the operator fails, and if the platform's children
   * are admissible and claimable, its SAIA child is not going away and its Job has not failed, and
   * no other child of it shows an error: one bounded schedule ends with the platform Ready; and its
   * SAIA child is Ready with it if and only if it carries no annotation the Service stage panics on.
   */
  lemma BringUpEndsReady(ns: string, quantities: iset<string>, steps: seq<Step>, name: string, path: string, i: nat, pw: P.World, sw: S.World)
    requires PL.WorldOk(pw) && SL.WorldOk(sw) && sw.splunk == pw.splunk
    requires var s := Exec(Empty(ns, quantities), steps + Settle(pw, sw)).store;
             && Promising(s, name, pw)
             && var fs := s.platforms[name].spec.features;
             && Hyphenless(fs) && i < |fs| && fs[i].name == "saia"
             && (forall k, j :: 0 <= k < |fs| && 0 <= j < |steps| ==> Faithful(steps[j], name, path, fs[k].name))
             && ChildRecoverable(s, ChildName(name, "saia")) && OthersQuiet(s, name, fs, ChildName(name, "saia"))
    ensures var child := ChildName(name, "saia");
            var st := Exec(Empty(ns, quantities), steps + Settle(pw, sw));
            var u := Exec(st, BringUp(name, child, pw, sw)).store;
            && name in u.platforms && IsConditionTrue(u.platforms[name].status.conditions, "Ready")
            && child in u.services
            && (IsConditionTrue(u.services[child].status.conditions, "Ready") <==>
                  (child in st.store.services ==> Clean(st.store.services[child].meta)))
  {
    var all := steps + Settle(pw, sw);
    var st := Exec(Empty(ns, quantities), all);
    var fs := st.store.platforms[name].spec.features;
    hide Exec, Settle, Faithful, Promising, PL.PlatformOk, PL.WorldOk, SL.WorldOk, ChildRecoverable, OthersQuiet, BringUp, IsConditionTrue, Inv,
      ChildName, Clean;
    SettledRun(ns, quantities, steps, pw, sw);
    forall k, j | 0 <= k < |fs| && 0 <= j < |all| ensures Faithful(all[j], name, path, fs[k].name) {
      SettleIsFaithful(pw, sw, name, path, fs[k].name);
    }
    PromisingIsOk(ns, quantities, all, name, path, pw);
    QuantitiesStay(Empty(ns, quantities), all);
    BringUpFrom(st, name, i, pw, sw);
  }

  lemma SettledRun(ns: string, quantities: iset<string>, steps: seq<Step>, pw: P.World, sw: S.World)
    ensures var st := Exec(Empty(ns, quantities), steps + Settle(pw, sw));
            Idle(st) && Inv(st)
  {
    hide Exec, Settle, Inv;
    D.ExecAppend(Empty(ns, quantities), steps, Settle(pw, sw));
    Invariant(ns, quantities, steps);
    SettlesIdle(Exec(Empty(ns, quantities), steps), pw, sw);
  }
}
