/** What one uninterrupted reconcile of a SAIA child achieves when nothing outside it fails. */
module ServiceLiveness {
  import opened Api
  import opened Names
  import opened Admission
  import opened ApiServer
  import opened Features
  import opened StageRunner
  import opened Protocol
  import opened Safety
  import opened Readiness
  import opened Turns
  import S = SaiaRun

  predicate WorldOk(w: S.World) {
    w.hookImage != "" && w.configMapsOk && w.featureMapOk && w.serviceOk && w.monitorOk && w.failing == {}
  }

  /** A configuration whose endpoint is known and whose token can be read. */
  predicate SplunkReady(c: Splunk, w: SplunkWorld) {
    c.endpoint != "" && c.secretRefName != "" && HecToken(c, w).Some?
  }

  /** A SAIA child whose gates are open and whose configuration resolves. */
  predicate ChildOk(s: Store, child: string, w: S.World) {
    && child in s.services
    && var v := s.services[child];
    && !v.meta.deleting
    && v.spec.feature.name == "saia"
    && SpecAdmitted(v.spec)
    && SplunkReady(v.spec.splunk, w.splunk)
    && GatesOpen(s, v)
    && v.status.schemaJobId in {"", JobName(child)}
    && (JobName(child) in s.jobs ==> S.JobVerdict(s.jobs[JobName(child)].flags) != S.Failed)
  }

  predicate GatesOpen(s: Store, v: Service) {
    S.GateError(s, v.spec.platformRef).None?
  }

  /** The certificate stage has nothing to wait for. */
  predicate CertificateOk(s: Store, child: string, m: Mtls) {
    m.enabled && m.termination == "operator" ==>
      CertificateName(child) in s.certificates && S.HasFlag(s.certificates[CertificateName(child)].flags, "Ready")
  }

  predicate JobDone(s: Store, child: string, v: Service) {
    && v.status.schemaJobId == JobName(child) && JobName(child) in s.jobs
    && S.JobVerdict(s.jobs[JobName(child)].flags) == S.Completed
  }

  predicate SameCore(a: ServiceSpec, b: ServiceSpec) {
    && a.feature == b.feature && a.platformRef == b.platformRef && a.taskVolume == b.taskVolume && a.mtls == b.mtls
    && a.splunk.endpoint == b.splunk.endpoint && a.splunk.secretRefName == b.splunk.secretRefName
    && a.splunk.secretSource == b.splunk.secretSource && a.splunk.vaultFilePath == b.splunk.vaultFilePath
  }

  /** The identity and everything a reconcile of the child does not write. */
  predicate SameMeta(a: Meta, b: Meta) {
    b == a.(version := b.version)
  }

  /** What a reconcile of the child leaves alone. */
  predicate Frame(s: Store, t: Store, child: string) {
    && child in s.services && child in t.services
    && t.ns == s.ns && t.platforms == s.platforms
    && t.services == s.services[child := t.services[child]]
    && SameMeta(s.services[child].meta, t.services[child].meta)
    && SameCore(s.services[child].spec, t.services[child].spec)
    && SpecAdmitted(t.services[child].spec)
  }

  /** The one change a reconcile makes to the stored spec: an account name where there was none. */
  predicate AccountNamed(v: ServiceSpec, w: ServiceSpec, child: string) {
    if v.serviceAccount != "" then w == v else w.serviceAccount == child + "-sa"
  }

  /** A run on its way: every stage so far passed and the copy is current. */
  predicate Midway(s: Store, t: Store, r: S.Run) {
    && Frame(s, t, r.name)
    && S.WellFormed(r) && r.outcome.Ok?
    && t.services[r.name].meta == r.ai.meta && t.services[r.name].status == s.services[r.name].status
    && SameCore(s.services[r.name].spec, r.ai.spec) && SpecAdmitted(r.ai.spec)
    && r.ai.status.schemaJobId == s.services[r.name].status.schemaJobId
    && (if r.next <= 1 then t.services[r.name].spec == s.services[r.name].spec
                            && r.ai.spec.serviceAccount == s.services[r.name].spec.serviceAccount
        else AccountNamed(s.services[r.name].spec, t.services[r.name].spec, r.name))
    && t.jobs == s.jobs
    && (r.next <= 4 ==> t.certificates == s.certificates)
    && (r.next > 4 ==> CertificateOk(s, r.name, s.services[r.name].spec.mtls) && CertificateOk(t, r.name, s.services[r.name].spec.mtls))
    && (r.next > S.HOOK_AT ==> JobDone(s, r.name, s.services[r.name]))
    && (r.next > S.PANIC_AT ==> Clean(s.services[r.name].meta))
  }

  /** How the run ended, by what it waited for. */
  predicate Ended(s: Store, t: Store, r: S.Run) {
    && Frame(s, t, r.name)
    && t.services[r.name].meta == r.ai.meta
    && S.WellFormed(r) && S.Stopped(r)
    && AccountNamed(s.services[r.name].spec, t.services[r.name].spec, r.name)
    && var v := s.services[r.name];
    if !CertificateOk(s, r.name, v.spec.mtls) then
      && r.outcome.Fail? && CertificateName(r.name) in t.certificates
      && r.ai.status.schemaJobId == v.status.schemaJobId && t.jobs == s.jobs
    else if !JobDone(s, r.name, v) then
      && r.outcome.Fail? && CertificateOk(t, r.name, v.spec.mtls)
      && r.ai.status.schemaJobId == JobName(r.name) && JobName(r.name) in t.jobs
      && S.JobVerdict(t.jobs[JobName(r.name)].flags) != S.Failed
    else
      && (if Clean(v.meta) then r.outcome.Ok? && r.next == |S.STAGES| else r.outcome.Panic? && r.next == S.PANIC_AT + 1)
      && r.ai.status.schemaJobId == JobName(r.name) && t.jobs == s.jobs && CertificateOk(t, r.name, v.spec.mtls)
  }

  lemma ValidatePasses(s: Store, child: string, w: S.World, v: ServiceSpec)
    requires ChildOk(s, child, w) && WorldOk(w) && v == s.services[child].spec
    ensures var (u, o) := S.ValidateSpec(s, v, w);
            o.Ok? && SameCore(v, u) && SpecAdmitted(u) && u.serviceAccount == v.serviceAccount
  {
  }

  lemma AccountPasses(s: Store, t: Store, r: S.Run, w: S.World)
    requires Midway(s, t, r) && r.next == 1 && WorldOk(w) && !s.services[r.name].meta.deleting
    ensures var (u, q) := S.StageStep(t, r, w);
            Midway(s, u, q)
  {
    hide SpecAdmitted, ServiceValid, S.WellFormed, CertificateOk, JobDone, S.ForeignAnnotations, S.ReconcileAccount, SameCore, JobName,
      CertificateName;
    S.StepWellFormed(t, r, w);
    AccountWrites(s, t, r.name, r.ai, w);
  }

  lemma AccountWrites(s: Store, t: Store, n: string, ai: Service, w: S.World)
    requires Frame(s, t, n) && !s.services[n].meta.deleting && EnsureAccount !in w.failing && UpdateSpec !in w.failing
    requires t.services[n].meta == ai.meta && SpecAdmitted(ai.spec) && SameCore(s.services[n].spec, ai.spec)
    ensures var (u, ai2, o) := S.ReconcileAccount(t, n, ai, w);
            && o.Ok? && Frame(s, u, n)
            && (if ai.spec.serviceAccount == "" then u.services[n].spec.serviceAccount == n + "-sa" else u == t)
            && u.services[n].meta == ai2.meta && u.services[n].status == t.services[n].status
            && SpecAdmitted(ai2.spec) && SameCore(s.services[n].spec, ai2.spec)
            && (ai2.status == ai.status || ai2.status == t.services[n].status)
            && u.jobs == t.jobs && u.certificates == t.certificates
  {
    hide SpecAdmitted, UpdateService, SameMeta, JobName;
    if ai.spec.serviceAccount == "" {
      var ai1 := ai.(spec := ai.spec.(serviceAccount := n + "-sa"));
      NamingKeepsAdmission(ai.spec, n + "-sa", t.services[n].spec);
      NameWritten(s, t, n, ai1);
    }
  }

  lemma NameWritten(s: Store, t: Store, n: string, ai: Service)
    requires Frame(s, t, n) && !s.services[n].meta.deleting
    requires t.services[n].meta == ai.meta && SameCore(s.services[n].spec, ai.spec)
    requires SpecAdmitted(ai.spec) && ServiceUpdateValid(t.services[n].spec, ai.spec) && DefaultService(ai.spec) == ai.spec
    ensures var (u, o) := UpdateService(t, n, ai);
            && o.Ok? && Frame(s, u, n) && u.services[n].status == t.services[n].status && u.services[n].spec == ai.spec
            && u.jobs == t.jobs && u.certificates == t.certificates
  {
    hide SpecAdmitted, ServiceUpdateValid, DefaultService, SameCore;
    var stored := Service(ai.meta, ai.spec, t.services[n].status);
    assert UpdateService(t, n, ai).0 == Stored(t, n, stored);
  }

  /** Writing a copy that went through Validate, with an account name added, is admitted as it is. */
  lemma NamingKeepsAdmission(v: ServiceSpec, account: string, stored: ServiceSpec)
    requires SpecAdmitted(v) && SameCore(stored, v)
    ensures var u := v.(serviceAccount := account);
            SpecAdmitted(u) && DefaultService(u) == u && ServiceUpdateValid(stored, u)
  {
  }

  lemma StagePasses(s: Store, t: Store, r: S.Run, w: S.World)
    requires ChildOk(s, r.name, w) && WorldOk(w) && Midway(s, t, r) && !S.Stopped(r)
    requires r.next == 0 ==> r.ai == s.services[r.name] && t == s
    ensures var (u, q) := S.StageStep(t, r, w);
            Midway(s, u, q) || Ended(s, u, q)
  {
    S.StepWellFormed(t, r, w);
    if r.next == 0 {
      ValidatePasses(s, r.name, w, r.ai.spec);
    } else if r.next == 1 {
      AccountPasses(s, t, r, w);
    } else if r.next == 4 {
      CertificateStep(s, t, r, w);
    } else if r.next == 5 {
      HookStep(s, t, r, w);
    } else {
      LateStep(s, t, r, w);
    }
  }

  /** A stage that leaves the AIServices alone keeps the frame. */
  lemma FrameStays(s: Store, t: Store, u: Store, child: string)
    requires Frame(s, t, child) && u.ns == t.ns && u.platforms == t.platforms && u.services == t.services
    ensures Frame(s, u, child)
  {
    hide SpecAdmitted;
  }

  lemma CertificateEffect(t: Store, n: string, ai: Service, w: S.World)
    requires EnsureCertificate !in w.failing
    ensures var (u, o) := S.ReconcileCertificate(t, n, ai, w);
            && u == t.(certificates := u.certificates)
            && (if CertificateOk(t, n, ai.spec.mtls) then o.Ok? && CertificateOk(u, n, ai.spec.mtls)
                else o.Fail? && CertificateName(n) in u.certificates)
  {
    hide CertificateName;
  }

  lemma CertificateStep(s: Store, t: Store, r: S.Run, w: S.World)
    requires ChildOk(s, r.name, w) && WorldOk(w) && Midway(s, t, r) && r.next == 4
    ensures var (u, q) := S.StageStep(t, r, w);
            Midway(s, u, q) || Ended(s, u, q)
  {
    hide SpecAdmitted, S.WellFormed, JobDone, S.ForeignAnnotations, JobName, S.GateError, CertificateName, S.ReconcileCertificate, Frame;
    S.StepWellFormed(t, r, w);
    CertificateEffect(t, r.name, r.ai, w);
    FrameStays(s, t, S.ReconcileCertificate(t, r.name, r.ai, w).0, r.name);
    assert CertificateOk(t, r.name, r.ai.spec.mtls) == CertificateOk(s, r.name, s.services[r.name].spec.mtls);
  }

  lemma HookEffect(t: Store, n: string, ai: Service, w: S.World)
    requires GetJob !in w.failing && EnsureJob !in w.failing && ai.spec.vectorDbUrl != ""
    requires ai.status.schemaJobId in {"", JobName(n)}
    requires JobName(n) in t.jobs ==> S.JobVerdict(t.jobs[JobName(n)].flags) != S.Failed
    ensures var (u, ai2, o) := S.ReconcileHook(t, n, ai, w);
            && u == t.(jobs := u.jobs) && ai2 == ai.(status := ai.status.(schemaJobId := JobName(n)))
            && (if JobDone(t, n, ai) then o.Ok? && u == t
                else o.Fail? && JobName(n) in u.jobs && S.JobVerdict(u.jobs[JobName(n)].flags) != S.Failed)
  {
  }

  lemma HookStep(s: Store, t: Store, r: S.Run, w: S.World)
    requires ChildOk(s, r.name, w) && WorldOk(w) && Midway(s, t, r) && r.next == 5
    ensures var (u, q) := S.StageStep(t, r, w);
            Midway(s, u, q) || Ended(s, u, q)
  {
    hide S.WellFormed, S.ForeignAnnotations, S.GateError, CertificateName, Frame, S.ReconcileHook, JobName, S.JobVerdict,
      SplunkReady, DefaultService;
    S.StepWellFormed(t, r, w);
    HookEffect(t, r.name, r.ai, w);
    FrameStays(s, t, S.ReconcileHook(t, r.name, r.ai, w).0, r.name);
    assert JobDone(t, r.name, r.ai) == JobDone(s, r.name, s.services[r.name]);
  }

  lemma LateStep(s: Store, t: Store, r: S.Run, w: S.World)
    requires WorldOk(w) && Midway(s, t, r) && !S.Stopped(r)
    requires r.next in {2, 3, 6, 7, 8}
    ensures var (u, q) := S.StageStep(t, r, w);
            Midway(s, u, q) || Ended(s, u, q)
  {
    S.StepWellFormed(t, r, w);
    LateEffect(t, r, w);
    var (u, q) := S.StageStep(t, r, w);
    hide S.StageStep, S.WellFormed, SpecAdmitted, SameCore, S.ForeignAnnotations, JobName, CertificateName, S.JobVerdict, S.HasFlag, AccountNamed;
    assert Clean(r.ai.meta) == Clean(s.services[r.name].meta);
    if q.outcome.Ok? {
      hide JobDone;
      assert Midway(s, u, q);
    } else {
      assert Ended(s, u, q);
    }
  }

  /** The stages that wait for nothing. */
  lemma LateEffect(t: Store, r: S.Run, w: S.World)
    requires WorldOk(w) && !S.Stopped(r) && r.next in {2, 3, 6, 7, 8}
    ensures var (u, q) := S.StageStep(t, r, w);
            && u == t.(deployments := u.deployments) && q.ai == r.ai && q.name == r.name && q.next == r.next + 1
            && (if r.next == S.PANIC_AT && !Clean(r.ai.meta) then q.outcome.Panic? else q.outcome.Ok?)
  {
    hide S.ForeignAnnotations, S.DeploymentUpserted;
  }

  lemma DoneHasId(s: Store, n: string)
    requires n in s.services
    ensures JobDone(s, n, s.services[n]) ==> s.services[n].status.schemaJobId == JobName(n)
  {
  }

  lemma MidwayEnds(s: Store, t: Store, r: S.Run)
    requires Midway(s, t, r) && S.Stopped(r)
    ensures Ended(s, t, r)
  {
    hide Frame, S.WellFormed, S.ForeignAnnotations, CertificateOk, JobName;
    FrameHas(s, t, r.name);
    WellFormedIs(r);
    DoneHasId(s, r.name);
  }

  lemma {:induction false} RunEnds(s: Store, t: Store, r: S.Run, w: S.World)
    requires ChildOk(s, r.name, w) && WorldOk(w) && Midway(s, t, r)
    requires r.next == 0 ==> r.ai == s.services[r.name] && t == s
    ensures var (u, q) := S.Finish(t, r, w);
            Ended(s, u, q) && q.name == r.name
    decreases |S.STAGES| - r.next
  {
    hide Midway, Ended, S.StageStep, ChildOk, WorldOk;
    if S.Stopped(r) {
      MidwayEnds(s, t, r);
    } else {
      StagePasses(s, t, r, w);
      S.StepAdvances(t, r, w);
      var (u, q) := S.StageStep(t, r, w);
      if Midway(s, u, q) {
        RunEnds(s, u, q, w);
      } else {
        assert S.Stopped(q) by { EndedStopped(s, u, q); }
      }
    }
  }

  lemma EndedStopped(s: Store, t: Store, r: S.Run)
    requires Ended(s, t, r)
    ensures S.Stopped(r) && S.WellFormed(r)
  {
    hide Frame, S.WellFormed, CertificateOk, JobDone, Clean, S.Stopped;
  }

  /** What an uninterrupted reconcile of a child leaves in the store, by what it had to wait for. */
  predicate TurnOutcome(s: Store, t: Store, child: string) {
    && Frame(s, t, child)
    && var v, v2 := s.services[child], t.services[child];
    && AccountNamed(v.spec, v2.spec, child) &&
    if !CertificateOk(s, child, v.spec.mtls) then
      && CertificateName(child) in t.certificates && HasError(v2.status.conditions)
      && v2.status.schemaJobId == v.status.schemaJobId && t.jobs == s.jobs
    else if !JobDone(s, child, v) then
      && CertificateOk(t, child, v.spec.mtls) && HasError(v2.status.conditions)
      && v2.status.schemaJobId == JobName(child) && JobName(child) in t.jobs
      && S.JobVerdict(t.jobs[JobName(child)].flags) != S.Failed
    else
      && !HasError(v2.status.conditions) && (IsConditionTrue(v2.status.conditions, "Ready") <==> Clean(v.meta))
      && (Clean(v.meta) || PanicTrace(v2))
      && v2.status.schemaJobId == JobName(child) && t.jobs == s.jobs && CertificateOk(t, child, v.spec.mtls)
  }

  lemma TurnOutcomeIs(s: Store, t: Store, child: string)
    requires TurnOutcome(s, t, child)
    ensures Frame(s, t, child) && AccountNamed(s.services[child].spec, t.services[child].spec, child)
  {
    hide SpecAdmitted, HasError, IsConditionTrue, CertificateOk, JobDone, S.JobVerdict, S.ForeignAnnotations;
  }

  /** The two status writes at the end of a turn: only the status and the version move. */
  lemma WritesLand(t: Store, r: S.Run)
    requires r.name in t.services && t.services[r.name].meta == r.ai.meta
    requires r.outcome.Ok? ==> IsConditionTrue(r.conditions, "Ready")
    ensures var u := AfterWrites(t, r);
            && u == t.(services := u.services)
            && u.services == t.services[r.name := u.services[r.name]]
            && var v, w := t.services[r.name], u.services[r.name];
            && w.spec == v.spec && SameMeta(v.meta, w.meta)
            && w.status == ServiceStatus(r.ai.status.schemaJobId, r.conditions)
  {
    hide IsConditionTrue, WithReady;
    if r.outcome.Ok? {
      ReadyHasKind(r.conditions);
    }
  }

  lemma FrameAfterWrites(s: Store, t: Store, u: Store, child: string)
    requires Frame(s, t, child)
    requires u == t.(services := u.services) && child in u.services && u.services == t.services[child := u.services[child]]
    requires u.services[child].spec == t.services[child].spec && SameMeta(t.services[child].meta, u.services[child].meta)
    ensures Frame(s, u, child)
  {
    hide SpecAdmitted, SameCore;
  }

  lemma TurnEnds(s: Store, t: Store, r: S.Run)
    requires Ended(s, t, r)
    ensures TurnOutcome(s, AfterWrites(t, r), r.name)
  {
    hide Frame, S.WellFormed, Published, HasError, IsConditionTrue, S.ForeignAnnotations, AfterWrites, S.JobVerdict, CertificateOk, JobDone,
      AccountNamed, JobName, CertificateName;
    FrameHas(s, t, r.name);
    SameCertificates(t, AfterWrites(t, r), r.name, s.services[r.name].spec.mtls);
    S.LabelsDistinct();
    assert Published(S.LABELS, r.conditions, r.next, r.outcome) && r.next <= |S.STAGES| by { WellFormedIs(r); }
    ReadPublished(S.LABELS, r.conditions, r.next, r.outcome);
    if r.outcome.Panic? && r.next == S.PANIC_AT + 1 {
      PanicConditions(r);
    }
    WritesLand(t, r);
    FrameAfterWrites(s, t, AfterWrites(t, r), r.name);
  }

  lemma SameCertificates(s: Store, t: Store, child: string, m: Mtls)
    ensures t.certificates == s.certificates ==> CertificateOk(t, child, m) == CertificateOk(s, child, m)
  {
  }

  lemma FrameHas(s: Store, t: Store, child: string)
    requires Frame(s, t, child)
    ensures child in s.services && child in t.services
  {
  }

  lemma PanicConditions(r: S.Run)
    requires S.WellFormed(r) && r.outcome.Panic? && r.next == S.PANIC_AT + 1
    ensures r.conditions == Passed(S.LABELS[..S.PANIC_AT])
  {
  }

  lemma WellFormedIs(r: S.Run)
    requires S.WellFormed(r)
    ensures Published(S.LABELS, r.conditions, r.next, r.outcome) && r.next <= |S.STAGES|
  {
  }

  /**
   * One uninterrupted reconcile of a SAIA child whose gates are open, in a world where nothing
   * fails: it waits for the certificate, else for the Job, else it ends Ready exactly when its
   * annotations do not make the Service stage panic. Everything beside the child is untouched.
   */
  lemma ServiceTurnOutcome(st: State, child: string, w: S.World)
    requires st.serviceRun.None? && ChildOk(st.store, child, w) && WorldOk(w)
    ensures var u := Exec(st, ServiceTurn(child, w));
            && SameBesideService(st, u) && u.serviceRun.None?
            && TurnOutcome(st.store, u.store, child)
            && ChildOk(u.store, child, w)
  {
    var s := st.store;
    var r := S.Start(child, s.services[child]);
    S.StartWellFormed(child, s.services[child]);
    StartsMidway(s, child, w);
    hide Midway, Ended, S.Finish, ChildOk, WorldOk, TurnOutcome, AfterWrites, Exec;
    assert child in s.services && !s.services[child].meta.deleting && s.services[child].spec.feature.name == "saia" by { ChildOkIs(s, child, w); }
    ServiceTurnIs(st, child, w);
    RunEnds(s, s, r, w);
    var (t, q) := S.Finish(s, r, w);
    TurnEnds(s, t, q);
    ChildStaysOk(s, AfterWrites(t, q), child, w);
  }

  lemma ChildOkIs(s: Store, child: string, w: S.World)
    requires ChildOk(s, child, w)
    ensures child in s.services && !s.services[child].meta.deleting && s.services[child].spec.feature.name == "saia"
  {
  }

  lemma StartsMidway(s: Store, child: string, w: S.World)
    requires ChildOk(s, child, w)
    ensures Midway(s, s, S.Start(child, s.services[child]))
  {
    hide SpecAdmitted, S.GateError, SplunkReady;
    S.StartWellFormed(child, s.services[child]);
    hide S.WellFormed;
    assert s.services == s.services[child := s.services[child]];
  }

  lemma ChildStaysOk(s: Store, t: Store, child: string, w: S.World)
    requires ChildOk(s, child, w) && TurnOutcome(s, t, child)
    ensures ChildOk(t, child, w)
  {
    hide SpecAdmitted, HasError, IsConditionTrue, S.HasFlag, CertificateOk, S.ForeignAnnotations, JobName, S.GateError, HecToken, S.JobVerdict;
    assert S.GateError(t, t.services[child].spec.platformRef) == S.GateError(s, s.services[child].spec.platformRef) by {
      SameGate(s, t, s.services[child].spec.platformRef);
    }
    SameToken(s.services[child].spec.splunk, t.services[child].spec.splunk, w.splunk);
  }

  lemma SameGate(s: Store, t: Store, ref: PlatformRef)
    requires s.platforms == t.platforms && s.ns == t.ns
    ensures S.GateError(s, ref) == S.GateError(t, ref)
  {
  }

  lemma SameToken(a: Splunk, b: Splunk, w: SplunkWorld)
    requires a.secretSource == b.secretSource && a.vaultFilePath == b.vaultFilePath
    ensures HecToken(a, w) == HecToken(b, w)
  {
  }
}
