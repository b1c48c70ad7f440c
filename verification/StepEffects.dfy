/**
 * What the API calls and the steps around the stage loops leave behind, field by field: fetching
 * and finalizing, the deferred writes, and the status write of the service controller.
 */
module StepEffects {
  import opened Api
  import opened Admission
  import opened ApiServer
  import opened Features
  import opened Protocol
  import opened Safety
  import P = PlatformRun
  import S = SaiaRun

  // ---- optimistic concurrency -------------------------------------------------------------------------------

  /** The caller's copy is of the object that is stored, and of its latest version. */
  predicate Current(stored: Meta, copy: Meta) {
    stored.uid == copy.uid && stored.version == copy.version
  }

  /**
   * An update goes through exactly when the copy is current and admission accepts the defaulted
   * spec. It writes metadata and spec and never the status; the version grows exactly when
   * something changes, and an object without finalizers that is being deleted disappears.
   */
  predicate UpdateLeft(s: Store, n: string, v: Service, t: Store, o: Outcome) {
    && t == s.(services := t.services)
    && (o.Ok? <==> n in s.services && Current(s.services[n].meta, v.meta) && ServiceUpdateValid(s.services[n].spec, DefaultService(v.spec)))
    && (!o.Ok? ==> t == s)
    && (o.Ok? && v.meta.deleting && v.meta.finalizers == [] ==> t.services == s.services - {n})
    && (o.Ok? && !(v.meta.deleting && v.meta.finalizers == []) ==>
          && n in t.services && t.services == s.services[n := t.services[n]]
          && t.services[n].status == s.services[n].status && t.services[n].spec == DefaultService(v.spec)
          && t.services[n].meta == v.meta.(version := t.services[n].meta.version)
          && t.services[n].meta.version ==
               v.meta.version + (if t.services[n].spec == s.services[n].spec && v.meta == s.services[n].meta then 0 else 1))
  }

  lemma UpdateIs(s: Store, n: string, v: Service)
    ensures var (t, o) := UpdateService(s, n, v);
            UpdateLeft(s, n, v, t, o)
  {
    hide ServiceUpdateValid, DefaultService;
    if n in s.services && Current(s.services[n].meta, v.meta) && ServiceUpdateValid(s.services[n].spec, DefaultService(v.spec)) {
      var stored := Service(v.meta, DefaultService(v.spec), s.services[n].status);
      assert UpdateService(s, n, v) == (Stored(s, n, stored), Ok);
      hide UpdateService;
      if !(v.meta.deleting && v.meta.finalizers == []) && stored == s.services[n] {
        assert s.services == s.services[n := s.services[n]];
      }
    } else {
      assert UpdateService(s, n, v).0 == s && !UpdateService(s, n, v).1.Ok?;
      hide UpdateService;
    }
  }

  /** A status write lands only on the version it was made from; it writes the status and the version. */
  predicate StatusLeft(s: Store, n: string, v: Service, lands: bool, t: Store, o: Outcome) {
    && (o.Ok? <==> lands && n in s.services && Current(s.services[n].meta, v.meta))
    && (!o.Ok? ==> t == s)
    && (o.Ok? ==>
          && n in t.services && t == s.(services := s.services[n := t.services[n]])
          && t.services[n].spec == s.services[n].spec && t.services[n].status == v.status
          && t.services[n].meta == s.services[n].meta.(version := s.services[n].meta.version + 1))
  }

  lemma StatusIs(s: Store, n: string, v: Service, lands: bool)
    ensures var (t, o) := UpdateServiceStatus(s, n, v, lands);
            StatusLeft(s, n, v, lands, t, o)
  {
  }

  /** A creation is admitted like an update, gets an identity no object had before, and starts without a status. */
  lemma CreateIs(s: Store, n: string, m: Meta, spec: ServiceSpec)
    ensures var (t, o) := CreateService(s, n, m, spec);
            && (o.Ok? <==> n !in s.services && ServiceValid(DefaultService(spec)))
            && (!o.Ok? ==> t == s)
            && (o.Ok? ==>
                  && n in t.services && t == s.(uids := s.uids + 1, services := s.services[n := t.services[n]])
                  && t.services[n].spec == DefaultService(spec)
                  && t.services[n].status.conditions == [] && t.services[n].status.schemaJobId == ""
                  && t.services[n].meta == m.(uid := s.uids, version := 0, deleting := false))
  {
    hide ServiceValid, DefaultService;
  }

  /** The same for a platform: validated like a creation, with two fields of the storage fixed. */
  lemma UpdatePlatformIs(s: Store, n: string, p: Platform, quantities: iset<string>)
    ensures var (t, o) := UpdatePlatform(s, n, p, quantities);
            && t == s.(platforms := t.platforms)
            && (o.Ok? <==> n in s.platforms && Current(s.platforms[n].meta, p.meta)
                           && PlatformUpdateValid(s.platforms[n].spec, DefaultPlatform(p.spec), quantities))
            && (!o.Ok? ==> t == s)
            && (o.Ok? && p.meta.deleting && p.meta.finalizers == [] ==> t.platforms == s.platforms - {n})
            && (o.Ok? && !(p.meta.deleting && p.meta.finalizers == []) ==>
                  && n in t.platforms && t.platforms == s.platforms[n := t.platforms[n]]
                  && t.platforms[n].status == s.platforms[n].status && t.platforms[n].spec == DefaultPlatform(p.spec)
                  && t.platforms[n].meta == p.meta.(version := t.platforms[n].meta.version)
                  && t.platforms[n].meta.version ==
                       p.meta.version + (if t.platforms[n].spec == s.platforms[n].spec && p.meta == s.platforms[n].meta then 0 else 1))
  {
    hide PlatformUpdateValid, DefaultPlatform;
    if n in s.platforms && Current(s.platforms[n].meta, p.meta) && PlatformUpdateValid(s.platforms[n].spec, DefaultPlatform(p.spec), quantities) {
      var stored := Platform(p.meta, DefaultPlatform(p.spec), s.platforms[n].status);
      assert UpdatePlatform(s, n, p, quantities) == (StoredPlatform(s, n, stored), Ok);
      hide UpdatePlatform;
      if !(p.meta.deleting && p.meta.finalizers == []) && stored == s.platforms[n] {
        assert s.platforms == s.platforms[n := s.platforms[n]];
      }
    } else {
      assert UpdatePlatform(s, n, p, quantities).0 == s && !UpdatePlatform(s, n, p, quantities).1.Ok?;
      hide UpdatePlatform;
    }
  }

  /** A user's deletion of a platform: gone without finalizers, otherwise marked once. */
  lemma DeletePlatformIs(s: Store, n: string)
    ensures var t := DeletePlatform(s, n);
            && t == s.(platforms := t.platforms)
            && (n !in s.platforms ==> t == s)
            && (n in s.platforms && s.platforms[n].meta.finalizers == [] ==> t.platforms == s.platforms - {n})
            && (n in s.platforms && s.platforms[n].meta.finalizers != [] ==>
                  && n in t.platforms && t.platforms == s.platforms[n := t.platforms[n]] && t.platforms[n].meta.deleting
                  && t.platforms[n] == s.platforms[n].(meta := s.platforms[n].meta.(deleting := true, version := t.platforms[n].meta.version))
                  && t.platforms[n].meta.version == s.platforms[n].meta.version + (if s.platforms[n].meta.deleting then 0 else 1))
  {
    if n in s.platforms && s.platforms[n].meta.deleting {
      assert s.platforms == s.platforms[n := s.platforms[n]];
    }
  }

  lemma CreatePlatformIs(s: Store, n: string, m: Meta, spec: PlatformSpec, quantities: iset<string>)
    ensures var t, accepted := CreatePlatform(s, n, m, spec, quantities),
                               n != "" && n !in s.platforms && PlatformValid(DefaultPlatform(spec), quantities);
            && (!accepted ==> t == s)
            && (accepted ==>
                  && n in t.platforms && t == s.(uids := s.uids + 1, platforms := s.platforms[n := t.platforms[n]])
                  && t.platforms[n].spec == DefaultPlatform(spec)
                  && t.platforms[n].status.conditions == [] && t.platforms[n].status.rayServiceName == ""
                  && t.platforms[n].status.vectorDbServiceName == ""
                  && t.platforms[n].meta == m.(uid := s.uids, version := 0, deleting := false))
  {
    hide PlatformValid, DefaultPlatform;
  }

  /** What the environment may do to workloads at any time, each to one object. */
  predicate WorkloadLeft(s: Store, step: Step, t: Store)
    requires OnWorkloads(step)
  {
    match step
    case JobFlags(n, flags) => t == s.(jobs := if n in s.jobs then s.jobs[n := Job(flags)] else s.jobs)
    case JobGone(n) => n !in t.jobs && t == s.(jobs := t.jobs) && (forall k :: k in s.jobs && k != n ==> k in t.jobs && t.jobs[k] == s.jobs[k])
                       && t.jobs.Keys <= s.jobs.Keys
    case CertificateFlags(n, flags) =>
      && t == s.(certificates := t.certificates) && t.certificates.Keys == s.certificates.Keys
      && (forall k :: k in s.certificates && k != n ==> t.certificates[k] == s.certificates[k])
      && (n in s.certificates ==> t.certificates[n] == s.certificates[n].(flags := flags))
    case ReadyReplicas(n, m) =>
      && t == s.(statefulSets := t.statefulSets) && t.statefulSets.Keys == s.statefulSets.Keys
      && (forall k :: k in s.statefulSets && k != n ==> t.statefulSets[k] == s.statefulSets[k])
      && (n in s.statefulSets ==> t.statefulSets[n] == s.statefulSets[n].(readyReplicas := m))
    case DeploymentGone(n) =>
      && n !in t.deployments && t == s.(deployments := t.deployments) && t.deployments.Keys <= s.deployments.Keys
      && (forall k :: k in s.deployments && k != n ==> k in t.deployments && t.deployments[k] == s.deployments[k])
    case StatefulSetGone(n) =>
      && n !in t.statefulSets && t == s.(statefulSets := t.statefulSets) && t.statefulSets.Keys <= s.statefulSets.Keys
      && (forall k :: k in s.statefulSets && k != n ==> k in t.statefulSets && t.statefulSets[k] == s.statefulSets[k])
  }

  lemma WorkloadStepIs(st: State, step: Step)
    requires OnWorkloads(step)
    ensures WorkloadLeft(st.store, step, Next(st, step).store)
    ensures Next(st, step).platformRun == st.platformRun && Next(st, step).serviceRun == st.serviceRun
  {
    hide PlatformNext, ServiceNext;
  }

  // ---- the platform controller ---------------------------------------------------------------------------------

  /** A deletion flow that finds children asks for the deletion of each and keeps the platform. */
  ghost predicate ChildrenAskedToGo(s: Store, t: Store, name: string, failing: set<Call>) {
    && OnlyServicesChanged(s, t)
    && forall n :: if n in s.services && s.services[n].meta.controller == Some(PlatformOwner(name)) && DeleteChild(n) !in failing
                   then Removed(s, t, n) else SameAt(s, t, n)
  }

  /** The platform without this operator's finalizer: gone if it was the last. */
  predicate PlatformReleased(s: Store, t: Store, name: string)
    requires name in s.platforms
  {
    var rest := RemoveAll(s.platforms[name].meta.finalizers, "ai.splunk.com/aiplatform-protect");
    && t == s.(platforms := t.platforms)
    && (rest == [] ==> t.platforms == s.platforms - {name})
    && (rest != [] ==>
          && name in t.platforms && t.platforms == s.platforms[name := t.platforms[name]]
          && t.platforms[name] ==
               s.platforms[name].(meta := s.platforms[name].meta.(finalizers := rest, version := s.platforms[name].meta.version + 1)))
  }

  /** The first step of a reconcile: nothing, a run on a copy, or the deletion flow of a platform that holds the finalizer. */
  ghost predicate PlatformFetchLeft(st: State, name: string, failing: set<Call>, t: State) {
    var s := st.store;
    if st.platformRun.Some? || name !in s.platforms then t == st
    else if !s.platforms[name].meta.deleting then
      && t == st.(platformRun := t.platformRun) && t.platformRun.Some?
      && var r := t.platformRun.value;
      && r.name == name && r.p == s.platforms[name] && r.next == 0 && r.conditions == [] && r.outcome.Ok?
    else
      && t == st.(store := t.store)
      && (if "ai.splunk.com/aiplatform-protect" !in s.platforms[name].meta.finalizers || ListChildren in failing then t.store == s
          else if exists n :: n in s.services && s.services[n].meta.controller == Some(PlatformOwner(name)) then
            ChildrenAskedToGo(s, t.store, name, failing)
          else if UpdateSpec in failing then t.store == s
          else PlatformReleased(s, t.store, name))
  }

  lemma PlatformFetchIs(st: State, name: string, failing: set<Call>)
    requires Inv(st)
    ensures PlatformFetchLeft(st, name, failing, Next(st, PlatformFetch(name, failing)))
  {
    hide FinalizePlatform, ChildrenAskedToGo, PlatformReleased, DefaultPlatform, PlatformValid, Inv, EnvironmentStore, ServiceNext;
    var s := st.store;
    if name in s.platforms {
      SoundStore(st);
      PlatformsAdmittedAt(s, name, st.quantities);
      if s.platforms[name].meta.deleting {
        FinalizeIs(s, name, failing, st.quantities);
      }
    }
  }

  lemma FinalizeIs(s: Store, name: string, failing: set<Call>, quantities: iset<string>)
    requires name in s.platforms && PlatformAdmittedAt(s, name, quantities) && s.platforms[name].meta.deleting
    ensures var t := FinalizePlatform(s, name, failing, quantities).0;
            if "ai.splunk.com/aiplatform-protect" !in s.platforms[name].meta.finalizers || ListChildren in failing then t == s
            else if exists n :: n in s.services && s.services[n].meta.controller == Some(PlatformOwner(name)) then
              ChildrenAskedToGo(s, t, name, failing)
            else if UpdateSpec in failing then t == s
            else PlatformReleased(s, t, name)
  {
    hide PlatformValid, DefaultPlatform, DeleteServices, Removed, SameAt, RemoveAll;
    var owned := Owned(s, name);
    if n :| n in s.services && s.services[n].meta.controller == Some(PlatformOwner(name)) {
      assert n in owned;
    }
    var gone := set n | n in owned && DeleteChild(n) !in failing;
    DeletionFrame(s, gone);
    forall n
      ensures if n in gone then Removed(s, DeleteServices(s, gone), n) else SameAt(s, DeleteServices(s, gone), n)
    {
      DeletionByName(s, gone, n);
    }
  }

  /** The deferred write: the latest object with the run's list and the names its copy collected; all else stays. */
  lemma PlatformPublishIs(st: State, lands: bool)
    requires st.platformRun.Some? && P.Stopped(st.platformRun.value)
    ensures var s, r, t := st.store, st.platformRun.value, Next(st, PlatformPublish(lands));
            && t == st.(store := t.store, platformRun := None)
            && (!lands || r.name !in s.platforms ==> t.store == s)
            && (lands && r.name in s.platforms ==>
                  && r.name in t.store.platforms && t.store == s.(platforms := s.platforms[r.name := t.store.platforms[r.name]])
                  && var before, after := s.platforms[r.name], t.store.platforms[r.name];
                  && after.spec == before.spec && after.meta == before.meta.(version := before.meta.version + 1)
                  && after.status.conditions == r.conditions
                  && after.status.rayServiceName == r.p.status.rayServiceName
                  && after.status.rayServiceStatus == r.p.status.rayServiceStatus
                  && after.status.vectorDbServiceName == r.p.status.vectorDbServiceName)
  {
  }

  // ---- the service controller ------------------------------------------------------------------------------------

  /** The first step of a reconcile: nothing, a run on a copy, or the release of a child that is being deleted. */
  predicate ServiceFetchLeft(st: State, name: string, failing: set<Call>, t: State) {
    var s := st.store;
    if st.serviceRun.Some? || name !in s.services then t == st
    else
      var v := s.services[name];
      if v.meta.deleting then
        && t == st.(store := t.store)
        && (if "ai.splunk.com/aiservice-protect" !in v.meta.finalizers || UpdateSpec in failing then t.store == s
            else
              var rest := RemoveAll(v.meta.finalizers, "ai.splunk.com/aiservice-protect");
              && (rest == [] ==> t.store == s.(services := s.services - {name}))
              && (rest != [] ==>
                    t.store == s.(services := s.services[name := v.(meta := v.meta.(finalizers := rest, version := v.meta.version + 1))])))
      else if v.spec.feature.name != "saia" then t == st
      else
        && t == st.(serviceRun := t.serviceRun) && t.serviceRun.Some?
        && !t.serviceRun.value.published && !t.serviceRun.value.sawComplete
        && var r := t.serviceRun.value.run;
        && r.name == name && r.ai == v && r.next == 0 && r.conditions == [] && r.outcome.Ok?
  }

  lemma ServiceFetchIs(st: State, name: string, failing: set<Call>)
    requires Inv(st)
    ensures ServiceFetchLeft(st, name, failing, Next(st, ServiceFetch(name, failing)))
  {
    hide Inv, FinalizeService, RemoveAll, Admitted, NoZombies, EnvironmentStore, PlatformNext, ServiceNext;
    var s := st.store;
    if name in s.services {
      SoundStore(st);
      if s.services[name].meta.deleting {
        ReleaseIs(s, name, failing);
      }
    }
    FetchedService(st, name, failing);
  }

  lemma SoundStore(st: State)
    requires Inv(st)
    ensures Admitted(st.store) && NoZombies(st.store) && PlatformsAdmitted(st.store, st.quantities)
  {
  }

  lemma FetchedService(st: State, name: string, failing: set<Call>)
    ensures ServiceNext(st, ServiceFetch(name, failing)) ==
              if st.serviceRun.Some? || name !in st.store.services then st
              else if st.store.services[name].meta.deleting then st.(store := FinalizeService(st.store, name, failing).0)
              else if st.store.services[name].spec.feature.name != "saia" then st
              else st.(serviceRun := Some(ServiceRun(S.Run(name, st.store.services[name], 0, [], Ok), false, false)))
  {
    hide FinalizeService;
  }

  lemma ReleaseIs(s: Store, name: string, failing: set<Call>)
    requires Admitted(s) && NoZombies(s) && name in s.services && s.services[name].meta.deleting
    ensures var t, v := FinalizeService(s, name, failing).0, s.services[name];
            var rest := RemoveAll(v.meta.finalizers, "ai.splunk.com/aiservice-protect");
            if "ai.splunk.com/aiservice-protect" !in v.meta.finalizers || UpdateSpec in failing then t == s
            else if rest == [] then t == s.(services := s.services - {name})
            else t == s.(services := s.services[name := v.(meta := v.meta.(finalizers := rest, version := v.meta.version + 1))])
  {
    var v := s.services[name];
    AdmittedAt(s, name);
    hide UpdateService, DefaultService, ServiceValid, RemoveAll, Admitted, NoZombies;
    UpdateIs(s, name, v.(meta := v.meta.(finalizers := RemoveAll(v.meta.finalizers, "ai.splunk.com/aiservice-protect"))));
  }

  /** The deferred write after the stages, and what the caller goes on with. */
  lemma ServicePublishIs(st: State, lands: bool)
    requires st.serviceRun.Some? && !st.serviceRun.value.published && S.Stopped(st.serviceRun.value.run)
    ensures var s, r, t := st.store, st.serviceRun.value.run, Next(st, ServicePublish(lands));
            var landed := lands && r.name in s.services && Current(s.services[r.name].meta, r.ai.meta);
            && t == st.(store := t.store, serviceRun := t.serviceRun)
            && (!landed ==> t.store == s)
            && (landed ==>
                  && r.name in t.store.services && t.store == s.(services := s.services[r.name := t.store.services[r.name]])
                  && var before, after := s.services[r.name], t.store.services[r.name];
                  && after.spec == before.spec && after.meta == before.meta.(version := before.meta.version + 1)
                  && after.status.schemaJobId == r.ai.status.schemaJobId && after.status.conditions == r.conditions)
            && (t.serviceRun.Some? <==> r.outcome.Ok?)
            && (r.outcome.Ok? ==>
                  && t.serviceRun.value.published && t.serviceRun.value.run == r.(ai := t.serviceRun.value.run.ai)
                  && (landed ==> t.serviceRun.value.run.ai == t.store.services[r.name])
                  && (!landed ==> t.serviceRun.value.run.ai == r.ai.(status := r.ai.status.(conditions := r.conditions))))
  {
  }

  predicate ListsReady(cs: seq<Condition>) {
    exists i :: 0 <= i < |cs| && cs[i].kind == "Ready"
  }

  /** The status write: Ready is added exactly when the list has no entry of that type, and nothing else of it changes. */
  lemma StatusWriteIs(st: State, lands: bool)
    requires st.serviceRun.Some? && st.serviceRun.value.published
    ensures var s, r, t := st.store, st.serviceRun.value.run, Next(st, ServiceStatusWrite(lands));
            var cs := r.ai.status.conditions;
            && t == st.(store := t.store, serviceRun := None)
            && (!lands || r.name !in s.services || !Current(s.services[r.name].meta, r.ai.meta) ==> t.store == s)
            && (lands && r.name in s.services && Current(s.services[r.name].meta, r.ai.meta) ==>
                  && r.name in t.store.services && t.store == s.(services := s.services[r.name := t.store.services[r.name]])
                  && var before, after := s.services[r.name], t.store.services[r.name];
                  && after.spec == before.spec && after.meta == before.meta.(version := before.meta.version + 1)
                  && after.status.schemaJobId == r.ai.status.schemaJobId
                  && (ListsReady(cs) ==> after.status.conditions == cs)
                  && (!ListsReady(cs) ==>
                        && |after.status.conditions| == |cs| + 1 && after.status.conditions[..|cs|] == cs
                        && after.status.conditions[|cs|].kind == "Ready" && after.status.conditions[|cs|].status == True))
  {
  }
}
