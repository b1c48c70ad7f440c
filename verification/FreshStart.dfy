/** From an empty namespace: which platforms the bring-up schedule brings up. */
module FreshStart {
  import opened Api
  import opened Names
  import opened Admission
  import opened Protocol
  import opened Safety
  import opened Turns
  import opened Liveness
  import P = PlatformRun
  import S = SaiaRun
  import PL = PlatformLiveness
  import SL = ServiceLiveness
  import D = Deletion

  // ---- steps that find nothing to do ---------------------------------------------------------------

  lemma MissingServiceTurn(st: State, child: string, w: S.World)
    requires Idle(st) && child !in st.store.services
    ensures Exec(st, ServiceTurn(child, w)) == st
  {
    var a, b, c, d := [ServiceFetch(child, {})], ServiceStages(w, |S.STAGES|), [ServicePublish(true)], [ServiceStatusWrite(true)];
    ExecOne(st, ServiceFetch(child, {}));
    ExecOne(st, ServicePublish(true));
    ExecOne(st, ServiceStatusWrite(true));
    hide Exec;
    assert ServiceTurn(child, w) == a + b + c + d;
    D.ExecAppend(st, a, b);
    D.ExecAppend(st, a + b, c);
    D.ExecAppend(st, a + b + c, d);
    NoServiceRun(st, w, |S.STAGES|);
  }

  lemma MissingPlatformTurn(st: State, name: string, w: P.World)
    requires Idle(st) && name !in st.store.platforms
    ensures Exec(st, PlatformTurn(name, w)) == st
  {
    var a, b, c := [PlatformFetch(name, {})], PlatformStages(w, |P.STAGES|), [PlatformPublish(true)];
    ExecOne(st, PlatformFetch(name, {}));
    ExecOne(st, PlatformPublish(true));
    hide Exec;
    D.ExecAppend(st, a, b);
    D.ExecAppend(st, a + b, c);
    NoPlatformRun(st, w, |P.STAGES|);
  }

  /** The child's part of the schedule does nothing where there is no child. */
  lemma MissingChildRounds(st: State, child: string, w: S.World)
    requires Idle(st) && child !in st.store.services
    requires CertificateName(child) !in st.store.certificates && JobName(child) !in st.store.jobs
    ensures Exec(Exec(Exec(st,
              ServiceTurn(child, w) + [CertificateFlags(CertificateName(child), READY_FLAGS)]),
              ServiceTurn(child, w) + [JobFlags(JobName(child), COMPLETE_FLAGS)]),
              ServiceTurn(child, w)) == st
  {
    ExecOne(st, CertificateFlags(CertificateName(child), READY_FLAGS));
    ExecOne(st, JobFlags(JobName(child), COMPLETE_FLAGS));
    assert Next(st, CertificateFlags(CertificateName(child), READY_FLAGS)) == st;
    assert Next(st, JobFlags(JobName(child), COMPLETE_FLAGS)) == st;
    hide Exec, ServiceTurn, CertificateName, JobName, Next;
    MissingServiceTurn(st, child, w);
    D.ExecAppend(st, ServiceTurn(child, w), [CertificateFlags(CertificateName(child), READY_FLAGS)]);
    D.ExecAppend(st, ServiceTurn(child, w), [JobFlags(JobName(child), COMPLETE_FLAGS)]);
  }

  // ---- the theorem ----------------------------------------------------------------------------------------

  function Created(ns: string, quantities: iset<string>, name: string, meta: Meta, spec: PlatformSpec): State {
    Exec(Empty(ns, quantities), [UserCreatePlatform(name, meta, spec)])
  }

  predicate ReadyAt(s: Store, name: string) {
    name in s.platforms && IsConditionTrue(s.platforms[name].status.conditions, "Ready")
  }

  lemma ReadyIs(s: Store, name: string)
    ensures ReadyAt(s, name) <==> name in s.platforms && IsConditionTrue(s.platforms[name].status.conditions, "Ready")
  {
  }

  lemma CreatedStore(ns: string, quantities: iset<string>, name: string, meta: Meta, spec: PlatformSpec)
    ensures var st := Created(ns, quantities, name, meta, spec);
            && Idle(st) && st.quantities == quantities
            && st.store.ns == ns && st.store.services == map[] && st.store.jobs == map[] && st.store.certificates == map[]
            && (if name != "" && PlatformValid(DefaultPlatform(spec), quantities) then
                  && name in st.store.platforms && st.store.platforms[name].spec == DefaultPlatform(spec)
                  && !st.store.platforms[name].meta.deleting
                else name !in st.store.platforms)
  {
    hide PlatformValid, DefaultPlatform;
    ExecOne(Empty(ns, quantities), UserCreatePlatform(name, meta, spec));
  }

  /**
   * In a world where nothing outside the operator fails, the schedule brings a newly created
   * platform with a SAIA feature up, together with its child, exactly when the platform webhook
   * accepts it, its Splunk configuration resolves, and the service webhook accepts its children.
   * Any other platform ends the schedule without Ready.
   */
  lemma ComesUpIff(ns: string, quantities: iset<string>, name: string, meta: Meta, spec: PlatformSpec, i: nat,
                   pw: P.World, sw: S.World)
    requires PL.WorldOk(pw) && SL.WorldOk(sw) && sw.splunk == pw.splunk
    requires i < |spec.features| && spec.features[i].name == "saia"
    ensures var t := Exec(Created(ns, quantities, name, meta, spec), BringUp(name, ChildName(name, "saia"), pw, sw)).store;
            var p := DefaultPlatform(spec);
            && (ReadyAt(t, name) <==>
                  && name != "" && PlatformValid(p, quantities)
                  && Enrich(p.splunk, ns, p.clusterDomain, pw.splunk).1.Ok?
                  && ChildAdmissible(p))
            && (ReadyAt(t, name) ==>
                  ChildName(name, "saia") in t.services
                  && IsConditionTrue(t.services[ChildName(name, "saia")].status.conditions, "Ready"))
  {
    var st, p, child := Created(ns, quantities, name, meta, spec), DefaultPlatform(spec), ChildName(name, "saia");
    PlatformDefaultsStable(spec);
    assert p.features == spec.features;
    CreatedStore(ns, quantities, name, meta, spec);
    assert FeatureNamesDistinct(p.features) || !PlatformValid(p, quantities);
    hide PlatformValid, DefaultPlatform, ChildAdmissible, Exec, ReadyAt, BringUp, PL.WorldOk, SL.WorldOk, Enrich, ChildName;
    if name in st.store.platforms && Enrich(p.splunk, ns, p.clusterDomain, pw.splunk).1.Ok? && ChildAdmissible(p) {
      assert PL.PlatformOk(st.store, name, pw, quantities);
      assert ChildRecoverable(st.store, child) && OthersQuiet(st.store, name, p.features, child);
      Invariant(ns, quantities, [UserCreatePlatform(name, meta, spec)]);
      BringUpFrom(st, name, i, pw, sw);
      assert ReadyAt(Exec(st, BringUp(name, child, pw, sw)).store, name) by { ReadyIs(Exec(st, BringUp(name, child, pw, sw)).store, name); }
    } else {
      NeverReady(st, name, child, pw, sw);
    }
  }

  lemma NeverReady(st: State, name: string, child: string, pw: P.World, sw: S.World)
    requires Idle(st) && st.store.services == map[] && st.store.jobs == map[] && st.store.certificates == map[] && PL.WorldOk(pw)
    requires name in st.store.platforms ==>
               var p := st.store.platforms[name];
               && name != "" && !p.meta.deleting
               && PlatformValid(p.spec, st.quantities) && p.spec == DefaultPlatform(p.spec) && p.spec.features != []
               && (Enrich(p.spec.splunk, st.store.ns, p.spec.clusterDomain, pw.splunk).1.Ok? ==> !ChildAdmissible(p.spec))
    ensures !ReadyAt(Exec(st, BringUp(name, child, pw, sw)).store, name)
  {
    hide PlatformValid, DefaultPlatform, ChildAdmissible, Exec, PL.WorldOk, Enrich, ChildName, PlatformTurn, ServiceTurn, IsConditionTrue,
      CertificateName, JobName;
    var turn := PlatformTurn(name, pw);
    var a := ServiceTurn(child, sw) + [CertificateFlags(CertificateName(child), READY_FLAGS)];
    var b := ServiceTurn(child, sw) + [JobFlags(JobName(child), COMPLETE_FLAGS)];
    SplitBringUp(st, turn, a, b, ServiceTurn(child, sw));
    D.ExecAppend(st, BringUpChild(name, child, pw, sw), turn);
    var st1 := Exec(st, turn);
    if name in st.store.platforms {
      PL.RefusedTurn(st, name, pw);
      MissingChildRounds(st1, child, sw);
      PL.RefusedTurn(st1, name, pw);
    } else {
      MissingPlatformTurn(st, name, pw);
      MissingChildRounds(st1, child, sw);
    }
  }
}
