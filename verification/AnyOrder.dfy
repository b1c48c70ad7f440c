/**
 * Bring-up in any order: a measure that no failure-free turn of either controller, certificate or
 * Job completion increases, and that the one it waits for decreases.
 */
module AnyOrder {
  import opened Api
  import opened Names
  import opened Admission
  import opened ApiServer
  import opened Features
  import opened Protocol
  import opened Safety
  import opened Readiness
  import opened Turns
  import opened Immutability
  import opened Liveness
  import P = PlatformRun
  import S = SaiaRun
  import PL = PlatformLiveness
  import SL = ServiceLiveness
  import D = Deletion
  import Q = Quiescence

  /** A whole reconcile of the platform or of the child, the certificate's issue, the Job's completion. */
  datatype Move = PlatformMove | ChildMove | CertificateMove | JobMove

  function StepsOf(m: Move, name: string, child: string, pw: P.World, sw: S.World): seq<Step> {
    match m
    case PlatformMove => PlatformTurn(name, pw)
    case ChildMove => ServiceTurn(child, sw)
    case CertificateMove => [CertificateFlags(CertificateName(child), READY_FLAGS)]
    case JobMove => [JobFlags(JobName(child), COMPLETE_FLAGS)]
  }

  function Moved(st: State, ms: seq<Move>, name: string, child: string, pw: P.World, sw: S.World): State {
    if ms == [] then st else Exec(Moved(st, ms[..|ms| - 1], name, child, pw, sw), StepsOf(ms[|ms| - 1], name, child, pw, sw))
  }

  // ---- what is kept ----------------------------------------------------------------------------------

  /** The platform has had a turn: its children are there, and nothing else stands in the way. */
  ghost predicate Underway(st: State, name: string, i: nat, pw: P.World, sw: S.World) {
    && Inv(st) && Idle(st)
    && PL.PlatformOk(st.store, name, pw, st.quantities)
    && var fs, child := st.store.platforms[name].spec.features, ChildName(name, "saia");
    && i < |fs| && fs[i].name == "saia"
    && SL.ChildOk(st.store, child, sw)
    && st.store.services[child].spec.mtls == DefaultMtls(st.store.platforms[name].spec.mtls)
    && OthersQuiet(st.store, name, fs, child)
  }

  // ---- the measure -----------------------------------------------------------------------------------

  /** The child's last list is what its annotations allow: Ready, or else the trace of a panic. */
  predicate ChildFinal(v: Service) {
    && !HasError(v.status.conditions)
    && (IsConditionTrue(v.status.conditions, "Ready") <==> Clean(v.meta))
    && (Clean(v.meta) || PanicTrace(v))
  }

  predicate Asked(s: Store, child: string, v: Service) {
    v.status.schemaJobId == JobName(child) && JobName(child) in s.jobs
  }

  predicate PlatformReady(s: Store, name: string) {
    name in s.platforms && IsConditionTrue(s.platforms[name].status.conditions, "Ready")
  }

  /** How far the bring-up still is from its end. */
  function Left(s: Store, name: string, child: string): nat
    requires child in s.services
  {
    var v := s.services[child];
    if !SL.CertificateOk(s, child, v.spec.mtls) then (if CertificateName(child) in s.certificates then 5 else 6)
    else if !SL.JobDone(s, child, v) then (if Asked(s, child, v) then 3 else 4)
    else if !ChildFinal(v) then 2
    else if !PlatformReady(s, name) then 1
    else 0
  }

  /** What the bring-up waits for. */
  function Needed(left: nat): Move {
    if left == 5 then CertificateMove else if left == 3 then JobMove else if left == 1 then PlatformMove else ChildMove
  }

  /** A move keeps the measure from growing, and decreases it if it is the one needed. */
  predicate Forward(m: Move, before: nat, after: nat) {
    after <= before && (before > 0 && m == Needed(before) ==> after < before)
  }

  // ---- the child's turn ----------------------------------------------------------------------------------

  lemma ChildForward(s: Store, t: Store, name: string, child: string)
    requires SL.TurnOutcome(s, t, child)
    ensures child in s.services && child in t.services
    ensures Forward(ChildMove, Left(s, name, child), Left(t, name, child))
  {
    hide HasError, IsConditionTrue, S.ForeignAnnotations, PanicTrace, S.JobVerdict, JobName, CertificateName, SpecAdmitted, S.HasFlag;
    SameClean(s.services[child].meta, t.services[child].meta);
  }

  lemma SameClean(a: Meta, b: Meta)
    requires SL.SameMeta(a, b)
    ensures Clean(a) == Clean(b)
  {
  }

  /** What is beside the child is all that PlatformOk looks at, apart from the child's own immutable fields. */
  lemma BesideKeepsOk(s: Store, t: Store, name: string, child: string, w: P.World, quantities: iset<string>)
    requires PL.PlatformOk(s, name, w, quantities) && BesideChild(s, t, child)
    ensures PL.PlatformOk(t, name, w, quantities)
  {
    hide PlatformValid, DefaultPlatform, Enrich, ChildAdmissible, ChildName, FeatureNamesDistinct;
    var p := s.platforms[name].spec;
    forall j | 0 <= j < |p.features| ensures PL.Upsertable(t, name, p, p.features[j]) {
      assert PL.Upsertable(s, name, p, p.features[j]);
    }
    assert PL.AllUpsertable(t, name, p, p.features);
  }

  lemma ChildMoves(st: State, name: string, i: nat, pw: P.World, sw: S.World)
    requires Underway(st, name, i, pw, sw) && SL.WorldOk(sw)
    ensures var child := ChildName(name, "saia");
            var u := Exec(st, ServiceTurn(child, sw));
            && Underway(u, name, i, pw, sw)
            && Forward(ChildMove, Left(st.store, name, child), Left(u.store, name, child))
  {
    var child := ChildName(name, "saia");
    assert name in st.store.platforms;
    hide Inv, PL.PlatformOk, SL.ChildOk, SL.WorldOk, OthersQuiet, Exec, ServiceTurn, SL.TurnOutcome, ChildName, BesideChild, Left, DefaultMtls;
    var u := Exec(st, ServiceTurn(child, sw));
    SL.ServiceTurnOutcome(st, child, sw);
    InvariantContinues(st, ServiceTurn(child, sw));
    ChildForward(st.store, u.store, name, child);
    FrameBeside(st.store, u.store, child);
    BesideKeepsOk(st.store, u.store, name, child, pw, st.quantities);
    QuietBeside(st.store, u.store, name, st.store.platforms[name].spec.features, child);
    BesideIs(st.store, u.store, child);
  }

  lemma BesideIs(s: Store, t: Store, child: string)
    requires BesideChild(s, t, child)
    ensures t.platforms == s.platforms && child in s.services && child in t.services
    ensures t.services[child].spec.mtls == s.services[child].spec.mtls
  {
  }

  // ---- the platform's turn ---------------------------------------------------------------------------------

  lemma PlatformForward(s: Store, t: Store, name: string, child: string)
    requires child in s.services && child in t.services
    requires t.jobs == s.jobs && t.certificates == s.certificates && Carried(t.services[child], s.services[child])
    requires t.services[child].spec.mtls == s.services[child].spec.mtls
    requires !HasError(s.services[child].status.conditions) ==> PlatformReady(t, name)
    ensures Forward(PlatformMove, Left(s, name, child), Left(t, name, child))
  {
    hide HasError, IsConditionTrue, S.ForeignAnnotations, S.JobVerdict, JobName, CertificateName, PlatformReady;
    assert ChildFinal(t.services[child]) == ChildFinal(s.services[child]) by { SameFinal(s.services[child], t.services[child]); }
    hide PanicTrace, Clean;
  }

  lemma SameFinal(v: Service, w: Service)
    requires w.status == v.status && w.meta.annotations == v.meta.annotations
    ensures ChildFinal(v) == ChildFinal(w)
  {
    hide HasError, IsConditionTrue, S.ForeignAnnotations;
  }

  lemma PlatformMoves(st: State, name: string, i: nat, pw: P.World, sw: S.World)
    requires Underway(st, name, i, pw, sw) && PL.WorldOk(pw) && sw.splunk == pw.splunk
    ensures var child := ChildName(name, "saia");
            var u := Exec(st, PlatformTurn(name, pw));
            && Underway(u, name, i, pw, sw)
            && Forward(PlatformMove, Left(st.store, name, child), Left(u.store, name, child))
  {
    var child := ChildName(name, "saia");
    assert child in st.store.services by { Q.ChildThere(st.store, child, sw); }
    Q.OkRecoverable(st.store, child, sw);
    FirstTurnUnderway(st, name, i, pw, sw);
    hide Inv, PL.PlatformOk, PL.WorldOk, SL.ChildOk, OthersQuiet, ChildRecoverable, Exec, PlatformTurn, PL.TurnOutcome, ChildName, Admitted,
      NoZombies, ChildrenSound, Left, DefaultMtls, Carried;
    var u := Exec(st, PlatformTurn(name, pw));
    NoRuns(st);
    PL.PlatformTurnOutcome(st, name, pw);
    assert child in DesiredNames(name, st.store.platforms[name].spec.features) by {
      assert child == ChildName(name, st.store.platforms[name].spec.features[i].name);
    }
    TurnCarries(st.store, u.store, name, i, child, pw);
    assert Underway(u, name, i, pw, sw);
    PlatformForward(st.store, u.store, name, child);
  }

  lemma TurnCarries(s: Store, t: Store, name: string, i: nat, child: string, w: P.World)
    requires PL.TurnOutcome(s, t, name, w) && child in s.services
    requires var fs := s.platforms[name].spec.features;
             OthersQuiet(s, name, fs, child) && child in DesiredNames(name, fs)
    ensures child in t.services && t.jobs == s.jobs && t.certificates == s.certificates
    ensures Carried(t.services[child], s.services[child])
    ensures !HasError(s.services[child].status.conditions) ==> PlatformReady(t, name)
  {
    PL.PreparedKeeps(s, name, w);
    hide DesiredNames, HasError, FeaturesSettled, OthersQuiet, IsConditionTrue, S.GateError, PL.Prepared, PL.AnyError, PL.WroteChildren;
    SettledCarries(s, t, name, PL.Prepared(s, name, w), child);
    if !HasError(s.services[child].status.conditions) {
      NothingWrong(s, t, name, PL.Prepared(s, name, w), child);
    }
  }

  lemma SettledCarries(s: Store, t: Store, name: string, p: Platform, child: string)
    requires FeaturesSettled(s, t, name, p) && child in DesiredNames(name, p.spec.features) && child in s.services
    ensures child in t.services && Carried(t.services[child], s.services[child])
  {
    hide DesiredNames, LastFor, ConvergedValue, ChildWritten, Carried, NewBorn;
    assert Converged(t, name, p, LastFor(name, p.spec.features, child).value, child, s.services);
  }

  /** One failure-free platform turn from a promising idle state gets the bring-up under way. */
  lemma FirstTurnUnderway(st: State, name: string, i: nat, pw: P.World, sw: S.World)
    requires Inv(st) && Idle(st) && PL.PlatformOk(st.store, name, pw, st.quantities) && PL.WorldOk(pw) && sw.splunk == pw.splunk
    requires var fs := st.store.platforms[name].spec.features;
             && i < |fs| && fs[i].name == "saia"
             && ChildRecoverable(st.store, ChildName(name, "saia")) && OthersQuiet(st.store, name, fs, ChildName(name, "saia"))
    ensures var u := Exec(st, PlatformTurn(name, pw));
            && Underway(u, name, i, pw, sw) && u.quantities == st.quantities
            && u.store.platforms[name].spec == st.store.platforms[name].spec
  {
    var child, fs := ChildName(name, "saia"), st.store.platforms[name].spec.features;
    var u := Exec(st, PlatformTurn(name, pw));
    var p := PL.Prepared(st.store, name, pw);
    PL.PreparedKeeps(st.store, name, pw);
    assert FeatureNamesDistinct(p.spec.features);
    hide Inv, PL.PlatformOk, PL.WorldOk, SL.ChildOk, ChildRecoverable, OthersQuiet, Exec, PlatformTurn, PL.TurnOutcome, FeaturesSettled, ChildName,
      Admitted, NoZombies, ChildrenSound, PL.Prepared, PL.WroteChildren, FeatureNamesDistinct, BuildService, DefaultService, DefaultMtls;
    NoRuns(st);
    PL.PlatformTurnOutcome(st, name, pw);
    InvariantContinues(st, PlatformTurn(name, pw));
    PL.TurnOutcomeIs(st.store, u.store, name, pw);
    ChildStarts(st.store, u.store, name, i, pw, sw, st.quantities, st.history);
    ConvergedChild(st.store, u.store, name, p, i);
    BuiltMtls(name, u.store.ns, p, p.spec.features[i]);
    QuietAfterTurn(st.store, u.store, name, p, child);
    BesideItself(u.store, child);
    StillOk(st.store, u.store, u.store, name, pw, st.quantities);
  }

  lemma BuiltMtls(name: string, ns: string, p: Platform, f: Feature)
    ensures DefaultService(BuildService(name, ns, p, f)).mtls == DefaultMtls(p.spec.mtls)
  {
  }

  // ---- the certificate and the Job ---------------------------------------------------------------------------

  lemma FlagsUnderway(st: State, step: Step, name: string, i: nat, pw: P.World, sw: S.World)
    requires Underway(st, name, i, pw, sw)
    requires var child := ChildName(name, "saia");
             step == CertificateFlags(CertificateName(child), READY_FLAGS) || step == JobFlags(JobName(child), COMPLETE_FLAGS)
    ensures Underway(Exec(st, [step]), name, i, pw, sw)
  {
    var child := ChildName(name, "saia");
    ExecOne(st, step);
    FlagsFrame(st, step);
    InvariantContinues(st, [step]);
    var u := Exec(st, [step]);
    hide Inv, Exec, Next, ChildName, JobName, CertificateName;
    SameStoreOk(st.store, u.store, name, pw, st.quantities, child, sw);
  }

  lemma FlagsFrame(st: State, step: Step)
    requires step.CertificateFlags? || step.JobFlags?
    ensures var u := Next(st, step);
            && u == st.(store := st.store.(jobs := u.store.jobs, certificates := u.store.certificates))
            && (step.JobFlags? && step.name in st.store.jobs ==> u.store.jobs == st.store.jobs[step.name := Job(step.flags)])
            && (step.JobFlags? ==> u.store.certificates == st.store.certificates)
            && (step.JobFlags? && step.name !in st.store.jobs ==> u.store.jobs == st.store.jobs)
            && (step.CertificateFlags? ==> u.store.jobs == st.store.jobs)
            && (step.CertificateFlags? && step.name !in st.store.certificates ==> u.store.certificates == st.store.certificates)
            && (step.CertificateFlags? && step.name in st.store.certificates ==>
                  u.store.certificates == st.store.certificates[step.name := st.store.certificates[step.name].(flags := step.flags)])
  {
  }

  lemma SameStoreOk(s: Store, t: Store, name: string, pw: P.World, quantities: iset<string>, child: string, sw: S.World)
    requires t == s.(jobs := t.jobs, certificates := t.certificates)
    requires JobName(child) in t.jobs ==> t.jobs[JobName(child)].flags == COMPLETE_FLAGS || (JobName(child) in s.jobs && t.jobs[JobName(child)] == s.jobs[JobName(child)])
    ensures PL.PlatformOk(s, name, pw, quantities) ==> PL.PlatformOk(t, name, pw, quantities)
    ensures SL.ChildOk(s, child, sw) ==> SL.ChildOk(t, child, sw)
    ensures name in s.platforms && OthersQuiet(s, name, s.platforms[name].spec.features, child) ==>
              OthersQuiet(t, name, t.platforms[name].spec.features, child)
  {
    hide PlatformValid, DefaultPlatform, Enrich, ChildAdmissible, ChildName, FeatureNamesDistinct, HasError, DesiredNames, SpecAdmitted, HecToken,
      S.GateError, JobName;
    if child in s.services {
      SL.SameGate(s, t, s.services[child].spec.platformRef);
    }
    if PL.PlatformOk(s, name, pw, quantities) {
      var p := s.platforms[name].spec;
      forall j | 0 <= j < |p.features| ensures PL.Upsertable(t, name, p, p.features[j]) {
        assert PL.Upsertable(s, name, p, p.features[j]);
      }
      assert PL.AllUpsertable(t, name, p, p.features);
    }
  }

  lemma CertificateForward(st: State, name: string, child: string)
    requires child in st.store.services
    ensures var u := Next(st, CertificateFlags(CertificateName(child), READY_FLAGS));
            child in u.store.services && Forward(CertificateMove, Left(st.store, name, child), Left(u.store, name, child))
  {
    FlagsFrame(st, CertificateFlags(CertificateName(child), READY_FLAGS));
    hide Next, ChildFinal, S.JobVerdict, JobName, CertificateName, IsConditionTrue;
  }

  lemma JobForward(st: State, name: string, child: string)
    requires child in st.store.services
    ensures var u := Next(st, JobFlags(JobName(child), COMPLETE_FLAGS));
            child in u.store.services && Forward(JobMove, Left(st.store, name, child), Left(u.store, name, child))
  {
    FlagsFrame(st, JobFlags(JobName(child), COMPLETE_FLAGS));
    hide Next, ChildFinal, S.HasFlag, JobName, CertificateName, IsConditionTrue;
  }

  // ---- every move, any order ------------------------------------------------------------------------------------

  /** Every move keeps the bring-up under way and never sets it back; the one it waits for takes it further. */
  lemma MoveForward(st: State, m: Move, name: string, i: nat, pw: P.World, sw: S.World)
    requires Underway(st, name, i, pw, sw) && PL.WorldOk(pw) && SL.WorldOk(sw) && sw.splunk == pw.splunk
    ensures var child := ChildName(name, "saia");
            var u := Exec(st, StepsOf(m, name, child, pw, sw));
            && child in st.store.services && child in u.store.services
            && Underway(u, name, i, pw, sw)
            && Forward(m, Left(st.store, name, child), Left(u.store, name, child))
  {
    var child := ChildName(name, "saia");
    assert child in st.store.services by { UnderwayHasChild(st, name, i, pw, sw); }
    match m {
      case PlatformMove => PlatformMoves(st, name, i, pw, sw);
      case ChildMove => ChildMoves(st, name, i, pw, sw);
      case CertificateMove =>
        var step := CertificateFlags(CertificateName(child), READY_FLAGS);
        ExecOne(st, step);
        hide Underway, Exec, Next, Left, ChildName;
        FlagsUnderway(st, step, name, i, pw, sw);
        CertificateForward(st, name, child);
      case JobMove =>
        var step := JobFlags(JobName(child), COMPLETE_FLAGS);
        ExecOne(st, step);
        hide Underway, Exec, Next, Left, ChildName;
        FlagsUnderway(st, step, name, i, pw, sw);
        JobForward(st, name, child);
    }
  }

  lemma UnderwayHasChild(st: State, name: string, i: nat, pw: P.World, sw: S.World)
    requires Underway(st, name, i, pw, sw)
    ensures ChildName(name, "saia") in st.store.services
  {
    hide Inv, PL.PlatformOk, OthersQuiet;
  }

  lemma {:induction false} MovesForward(st: State, ms: seq<Move>, name: string, i: nat, pw: P.World, sw: S.World)
    requires Underway(st, name, i, pw, sw) && PL.WorldOk(pw) && SL.WorldOk(sw) && sw.splunk == pw.splunk
    ensures var child := ChildName(name, "saia");
            var u := Moved(st, ms, name, child, pw, sw);
            && child in st.store.services && child in u.store.services
            && Underway(u, name, i, pw, sw) && Left(u.store, name, child) <= Left(st.store, name, child)
            && (Left(st.store, name, child) > 0 && Needed(Left(st.store, name, child)) in ms ==>
                  Left(u.store, name, child) < Left(st.store, name, child))
    decreases |ms|
  {
    hide Underway, Exec, StepsOf, Left, ChildName, PL.WorldOk, SL.WorldOk;
    var child := ChildName(name, "saia");
    if ms == [] {
      UnderwayHasChild(st, name, i, pw, sw);
    } else {
      var front, last := ms[..|ms| - 1], ms[|ms| - 1];
      MovesForward(st, front, name, i, pw, sw);
      MoveForward(Moved(st, front, name, child, pw, sw), last, name, i, pw, sw);
      assert ms == front + [last];
    }
  }

  /** Each kind of move occurs. */
  predicate Round(ms: seq<Move>) {
    PlatformMove in ms && ChildMove in ms && CertificateMove in ms && JobMove in ms
  }

  function AfterRounds(st: State, rounds: seq<seq<Move>>, name: string, child: string, pw: P.World, sw: S.World): State {
    if rounds == [] then st
    else Moved(AfterRounds(st, rounds[..|rounds| - 1], name, child, pw, sw), rounds[|rounds| - 1], name, child, pw, sw)
  }

  /** Whatever happens in which order and however often, each round takes the bring-up one step further. */
  lemma {:induction false} RoundsForward(st: State, rounds: seq<seq<Move>>, name: string, i: nat, pw: P.World, sw: S.World)
    requires Underway(st, name, i, pw, sw) && PL.WorldOk(pw) && SL.WorldOk(sw) && sw.splunk == pw.splunk
    requires forall k :: 0 <= k < |rounds| ==> Round(rounds[k])
    ensures var child := ChildName(name, "saia");
            var u := AfterRounds(st, rounds, name, child, pw, sw);
            && child in st.store.services && child in u.store.services && Underway(u, name, i, pw, sw)
            && (Left(u.store, name, child) == 0 || Left(u.store, name, child) + |rounds| <= Left(st.store, name, child))
    decreases |rounds|
  {
    hide Underway, Moved, Left, ChildName, PL.WorldOk, SL.WorldOk;
    var child := ChildName(name, "saia");
    if rounds == [] {
      UnderwayHasChild(st, name, i, pw, sw);
    } else {
      var front, last := rounds[..|rounds| - 1], rounds[|rounds| - 1];
      RoundsForward(st, front, name, i, pw, sw);
      var mid := AfterRounds(st, front, name, child, pw, sw);
      MovesForward(mid, last, name, i, pw, sw);
      assert Round(rounds[|rounds| - 1]);
    }
  }

  lemma LeftIsBounded(s: Store, name: string, child: string)
    requires child in s.services
    ensures Left(s, name, child) <= 6
    ensures Left(s, name, child) == 0 ==> PlatformReady(s, name) && ChildFinal(s.services[child])
  {
    hide SL.CertificateOk, SL.JobDone, ChildFinal, PlatformReady, Asked;
  }

  /** Six rounds are enough, and nothing after them undoes it. */
  lemma RoundsEnd(st: State, name: string, i: nat, pw: P.World, sw: S.World, rounds: seq<seq<Move>>, further: seq<Move>)
    requires Underway(st, name, i, pw, sw) && PL.WorldOk(pw) && SL.WorldOk(sw) && sw.splunk == pw.splunk
    requires |rounds| >= 6 && forall k :: 0 <= k < |rounds| ==> Round(rounds[k])
    ensures var child := ChildName(name, "saia");
            var u := Moved(AfterRounds(st, rounds, name, child, pw, sw), further, name, child, pw, sw).store;
            PlatformReady(u, name) && child in u.services && ChildFinal(u.services[child])
  {
    hide *;
    var child := ChildName(name, "saia");
    RoundsForward(st, rounds, name, i, pw, sw);
    var mid := AfterRounds(st, rounds, name, child, pw, sw);
    LeftIsBounded(st.store, name, child);
    MovesForward(mid, further, name, i, pw, sw);
    LeftIsBounded(Moved(mid, further, name, child, pw, sw).store, name, child);
  }

  /** From a sound idle state with a promising platform. */
  lemma FairFrom(st0: State, name: string, i: nat, pw: P.World, sw: S.World, rounds: seq<seq<Move>>, further: seq<Move>)
    requires Inv(st0) && Idle(st0) && PL.PlatformOk(st0.store, name, pw, st0.quantities)
    requires PL.WorldOk(pw) && SL.WorldOk(sw) && sw.splunk == pw.splunk
    requires var fs := st0.store.platforms[name].spec.features;
             && i < |fs| && fs[i].name == "saia"
             && ChildRecoverable(st0.store, ChildName(name, "saia")) && OthersQuiet(st0.store, name, fs, ChildName(name, "saia"))
    requires |rounds| >= 6 && forall k :: 0 <= k < |rounds| ==> Round(rounds[k])
    ensures var child := ChildName(name, "saia");
            var st := Exec(st0, PlatformTurn(name, pw));
            var u := Moved(AfterRounds(st, rounds, name, child, pw, sw), further, name, child, pw, sw).store;
            PlatformReady(u, name) && child in u.services && ChildFinal(u.services[child])
  {
    hide *;
    FirstTurnUnderway(st0, name, i, pw, sw);
    RoundsEnd(Exec(st0, PlatformTurn(name, pw)), name, i, pw, sw, rounds, further);
  }

  /**
   * Fair bring-up. From every reachable state of a run with faithful users, once the runs in flight
   * have finished and under the hypotheses of the scheduled bring-up: after one platform turn, any
   * six rounds, each holding the four moves in whatever order and number, end with the platform
   * Ready and its SAIA child Ready if and only if its annotations are clean; and any further moves
   * leave it so.
   */
  lemma FairBringUp(ns: string, quantities: iset<string>, steps: seq<Step>, name: string, path: string, i: nat, pw: P.World, sw: S.World,
                    rounds: seq<seq<Move>>, further: seq<Move>)
    requires PL.WorldOk(pw) && SL.WorldOk(sw) && sw.splunk == pw.splunk
    requires var s := Exec(Empty(ns, quantities), steps + Settle(pw, sw)).store;
             && Promising(s, name, pw)
             && var fs := s.platforms[name].spec.features;
             && Hyphenless(fs) && i < |fs| && fs[i].name == "saia"
             && (forall k, j :: 0 <= k < |fs| && 0 <= j < |steps| ==> Faithful(steps[j], name, path, fs[k].name))
             && ChildRecoverable(s, ChildName(name, "saia")) && OthersQuiet(s, name, fs, ChildName(name, "saia"))
    requires |rounds| >= 6 && forall k :: 0 <= k < |rounds| ==> Round(rounds[k])
    ensures var child := ChildName(name, "saia");
            var st := Exec(Exec(Empty(ns, quantities), steps + Settle(pw, sw)), PlatformTurn(name, pw));
            var u := Moved(AfterRounds(st, rounds, name, child, pw, sw), further, name, child, pw, sw).store;
            PlatformReady(u, name) && child in u.services && ChildFinal(u.services[child])
  {
    var all := steps + Settle(pw, sw);
    var st0 := Exec(Empty(ns, quantities), all);
    var fs := st0.store.platforms[name].spec.features;
    hide Exec, Settle, Faithful, Promising, PL.PlatformOk, PL.WorldOk, SL.WorldOk, ChildRecoverable, OthersQuiet, Inv, ChildName, Moved,
      AfterRounds, PlatformReady, ChildFinal, PlatformTurn, Idle, Round;
    SettledRun(ns, quantities, steps, pw, sw);
    forall k, j | 0 <= k < |fs| && 0 <= j < |all| ensures Faithful(all[j], name, path, fs[k].name) {
      SettleIsFaithful(pw, sw, name, path, fs[k].name);
    }
    PromisingIsOk(ns, quantities, all, name, path, pw);
    QuantitiesStay(Empty(ns, quantities), all);
    FairFrom(st0, name, i, pw, sw, rounds, further);
  }
}
