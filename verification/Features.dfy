/**
 * ReconcileFeatures: one child AIService per feature is created or updated, every other owned
 * child is deleted; and CheckAIServiceStatus, which inspects the children.
 */
module Features {
  import opened Api
  import opened Names
  import opened Admission
  import opened ApiServer

  function ChildLabels(platform: string, f: Feature): map<string, string> {
    map["aiplatform" := platform, "feature" := f.name]
  }

  /** The mutation CreateOrUpdate applies to a child that already exists. */
  function Desired(cur: Service, ns: string, name: string, p: Platform, f: Feature): Service {
    cur.(spec := BuildService(name, ns, p, f),
         meta := cur.meta.(controller := Some(PlatformOwner(name)), labels := cur.meta.labels + ChildLabels(name, f)))
  }

  function NewChildMeta(name: string, f: Feature): Meta {
    EMPTY_META.(controller := Some(PlatformOwner(name)), labels := ChildLabels(name, f))
  }

  function Upsert(s: Store, name: string, p: Platform, f: Feature, failing: set<Call>): (r: (Store, Outcome))
    ensures !r.1.Ok? ==> r.0 == s
    ensures !r.1.Panic?
  {
    var child := ChildName(name, f.name);
    if UpsertChild(child) in failing then (s, Fail("client error"))
    else if child !in s.services then CreateService(s, child, NewChildMeta(name, f), BuildService(name, s.ns, p, f))
    else
      var cur := s.services[child];
      if !Claimable(cur.meta, PlatformOwner(name)) then (s, Fail("already owned"))
      else if Desired(cur, s.ns, name, p, f) == cur then (s, Ok)
      else UpdateService(s, child, Desired(cur, s.ns, name, p, f))
  }

  function UpsertAll(s: Store, name: string, p: Platform, fs: seq<Feature>, failing: set<Call>): (r: (Store, Outcome))
    ensures !r.1.Panic?
    decreases |fs|
  {
    if fs == [] then (s, Ok)
    else
      var (s1, o) := Upsert(s, name, p, fs[0], failing);
      if o.Ok? then UpsertAll(s1, name, p, fs[1..], failing) else (s1, o)
  }

  function DesiredNames(name: string, fs: seq<Feature>): set<string> {
    set i | 0 <= i < |fs| :: ChildName(name, fs[i].name)
  }

  /**
   * The prune loop stops at the first delete that fails; which other deletes came before it
   * depends on the order of the listing, and reached says which did.
   */
  function Prune(s: Store, name: string, desired: set<string>, failing: set<Call>, reached: set<string>): (Store, Outcome) {
    var doomed := Owned(s, name) - desired;
    var blocked := set n | n in doomed && DeleteChild(n) in failing;
    if blocked == {} then (DeleteServices(s, doomed), Ok)
    else (DeleteServices(s, (doomed - blocked) * reached), Fail("client error"))
  }

  function ReconcileFeatures(s: Store, name: string, p: Platform, failing: set<Call>, reached: set<string>): (r: (Store, Outcome))
    ensures !r.1.Panic?
  {
    var (s1, o) := UpsertAll(s, name, p, p.spec.features, failing);
    if !o.Ok? then (s1, o)
    else if ListChildren in failing then (s1, Fail("client error"))
    else Prune(s1, name, DesiredNames(name, p.spec.features), failing, reached)
  }

  /** CheckAIServiceStatus: an error condition of any owned child is an error of the platform. */
  function CheckChildren(s: Store, name: string, failing: set<Call>): Outcome {
    if ListChildren in failing then Fail("failed to list AIService children")
    else if exists n :: n in Owned(s, name) && HasError(s.services[n].status.conditions) then Fail("AIService has failed condition")
    else Ok
  }

  // ---- what a run of the upsert loop leaves behind ----------------------------------------

  /** The last feature that names the child n. */
  function LastFor(name: string, fs: seq<Feature>, n: string): (r: Option<Feature>)
    ensures r.Some? <==> n in DesiredNames(name, fs)
    ensures r.Some? ==> r.value in fs && ChildName(name, r.value.name) == n
  {
    if fs == [] then None
    else
      var rest := LastFor(name, fs[1..], n);
      assert DesiredNames(name, fs) == {ChildName(name, fs[0].name)} + DesiredNames(name, fs[1..]) by {
        DesiredNamesCons(name, fs);
      }
      if rest.Some? then rest
      else if ChildName(name, fs[0].name) == n then Some(fs[0]) else None
  }

  lemma DesiredNamesCons(name: string, fs: seq<Feature>)
    requires fs != []
    ensures DesiredNames(name, fs) == {ChildName(name, fs[0].name)} + DesiredNames(name, fs[1..])
  {
    var a, b := DesiredNames(name, fs), {ChildName(name, fs[0].name)} + DesiredNames(name, fs[1..]);
    forall n | n in a ensures n in b {
      var i :| 0 <= i < |fs| && n == ChildName(name, fs[i].name);
      if i > 0 {
        assert fs[i] == fs[1..][i - 1];
      }
    }
    forall n | n in b ensures n in a {
      if n != ChildName(name, fs[0].name) {
        var i :| 0 <= i < |fs[1..]| && n == ChildName(name, fs[1..][i].name);
        assert fs[1..][i] == fs[i + 1];
      }
    }
  }

  /** A child as the loop leaves it, given what was stored under its name before. */
  predicate ConvergedValue(v: Service, name: string, ns: string, p: Platform, f: Feature) {
    OwnedBy(v, name) && v.spec == DefaultService(BuildService(name, ns, p, f))
  }

  /** What an update of a child never touches. */
  predicate Carried(v: Service, before: Service) {
    && v.status == before.status
    && v.meta.uid == before.meta.uid
    && v.meta.deleting == before.meta.deleting
    && v.meta.finalizers == before.meta.finalizers
    && v.meta.annotations == before.meta.annotations
    && (forall k :: k in before.meta.labels && k !in {"aiplatform", "feature"} ==>
          k in v.meta.labels && v.meta.labels[k] == before.meta.labels[k])
  }

  predicate NewBorn(v: Service) {
    v.status == ServiceStatus("", []) && !v.meta.deleting && v.meta.annotations == map[] && v.meta.finalizers == []
  }

  predicate Converged(s: Store, name: string, p: Platform, f: Feature, n: string, before: map<string, Service>) {
    && n in s.services
    && ConvergedValue(s.services[n], name, s.ns, p, f)
    && ChildWritten(s.services[n], name, s.ns, p, f)
    && (if n in before then Carried(s.services[n], before[n]) else NewBorn(s.services[n]))
  }

  /** The child field by field: its owner, its two labels, and its whole spec in terms of the platform and the feature. */
  predicate ChildWritten(v: Service, name: string, ns: string, p: Platform, f: Feature) {
    && v.meta.controller == Some(PlatformOwner(name))
    && v.meta.labels == v.meta.labels["aiplatform" := name]["feature" := f.name]
    && SpecWritten(v.spec, name, ns, p, f)
  }

  /** Copied from the platform or from the feature, or fixed; the webhook adds port, cluster domain and termination. */
  predicate SpecWritten(v: ServiceSpec, name: string, ns: string, p: Platform, f: Feature) {
    && v.feature == f && v.version == f.version && v.serviceAccount == f.serviceAccount
    && v.platformRef.name == name && v.platformRef.ns == ns
    && v.taskVolume == p.spec.objectStorage && v.splunk == p.spec.splunk && v.pullSecrets == p.spec.pullSecrets
    && v.vectorDbUrl == p.status.vectorDbServiceName && v.platformUrl == ""
    && v.replicas == 1 && v.port == 80 && v.clusterDomain == "cluster.local"
    && v.metrics.enabled && v.metrics.path == "/metrics" && v.metrics.port == 8080
    && v.mtls.enabled == p.spec.mtls.enabled && v.mtls.issuerName == p.spec.mtls.issuerName
    && v.mtls.secretName == p.spec.mtls.secretName && v.mtls.dnsNames == p.spec.mtls.dnsNames
    && v.mtls.termination == (if p.spec.mtls.enabled && p.spec.mtls.termination == "" then "operator" else p.spec.mtls.termination)
    && v.requests == map[] && v.limits == map[]
  }

  predicate SameAt(s: Store, t: Store, n: string) {
    && (n in s.services <==> n in t.services)
    && (n in s.services ==> s.services[n] == t.services[n])
  }

  /** Everything but the AIServices (and the identity counter) is as before. */
  predicate OnlyServicesChanged(s: Store, t: Store) {
    t == s.(services := t.services, uids := t.uids)
  }

  /** Admission only ever stores specs that are defaulted and valid. */
  predicate Admitted(s: Store) {
    forall n :: n in s.services ==> SpecAdmitted(s.services[n].spec)
  }

  predicate SpecAdmitted(v: ServiceSpec) {
    v.port != 0 && v == DefaultService(v) && ServiceValid(v)
  }

  lemma DefaultedIsAdmitted(v: ServiceSpec)
    requires ServiceValid(DefaultService(v))
    ensures SpecAdmitted(DefaultService(v))
  {
  }

  /** The value one upsert stores under the child's name. */
  function UpsertValue(s: Store, name: string, p: Platform, f: Feature): Service {
    var child := ChildName(name, f.name);
    var spec := DefaultService(BuildService(name, s.ns, p, f));
    if child !in s.services then
      Service(NewChildMeta(name, f).(uid := s.uids, version := 0, deleting := false), spec, ServiceStatus("", []))
    else
      var cur := s.services[child];
      var want := Service(Desired(cur, s.ns, name, p, f).meta, spec, cur.status);
      if want == cur then cur else want.(meta := want.meta.(version := want.meta.version + 1))
  }

  /** A successful upsert writes exactly one key, and what it stores was admitted. */
  lemma UpsertWrites(s: Store, name: string, p: Platform, f: Feature, failing: set<Call>)
    requires NoZombies(s) && Admitted(s)
    requires Upsert(s, name, p, f, failing).1.Ok?
    ensures var t := Upsert(s, name, p, f, failing).0;
            var child := ChildName(name, f.name);
            && t.services == s.services[child := UpsertValue(s, name, p, f)]
            && OnlyServicesChanged(s, t)
            && SpecAdmitted(UpsertValue(s, name, p, f).spec)
  {
    var spec, child := BuildService(name, s.ns, p, f), ChildName(name, f.name);
    hide BuildService, ChildName, SpecAdmitted, Admitted, NoZombies, DefaultService;
    if child in s.services {
      var cur, want := s.services[child], Desired(s.services[child], s.ns, name, p, f);
      AdmittedAt(s, child);
      if want == cur {
        hide UpdateService;
      } else {
        UpdateStores(s, child, want);
        hide UpdateService;
      }
    } else if ServiceValid(DefaultService(spec)) {
      DefaultedIsAdmitted(spec);
      hide ServiceValid;
    }
  }

  lemma AdmittedAt(s: Store, n: string)
    requires NoZombies(s) && Admitted(s) && n in s.services
    ensures SpecAdmitted(s.services[n].spec) && DefaultService(s.services[n].spec) == s.services[n].spec
    ensures !(s.services[n].meta.deleting && s.services[n].meta.finalizers == [])
  {
    hide ServiceValid, DefaultService;
  }

  /** A successful update of an object that is not on its way out stores the defaulted value. */
  lemma UpdateStores(s: Store, n: string, v: Service)
    requires n in s.services && !(v.meta.deleting && v.meta.finalizers == [])
    requires UpdateService(s, n, v).1.Ok?
    ensures var stored := Service(v.meta, DefaultService(v.spec), s.services[n].status);
            UpdateService(s, n, v).0 ==
              if stored == s.services[n] then s
              else s.(services := s.services[n := stored.(meta := v.meta.(version := v.meta.version + 1))])
    ensures SpecAdmitted(DefaultService(v.spec))
  {
    hide DefaultService, ServiceValid;
    DefaultedIsAdmitted(v.spec);
  }

  lemma UpsertValueConverges(s: Store, name: string, p: Platform, f: Feature)
    requires NoZombies(s)
    ensures var v := UpsertValue(s, name, p, f);
            var child := ChildName(name, f.name);
            && ConvergedValue(v, name, s.ns, p, f) && ChildWritten(v, name, s.ns, p, f)
            && (if child in s.services then Carried(v, s.services[child]) else NewBorn(v))
            && (v.meta.deleting ==> v.meta.finalizers != [])
  {
    SpecAsBuilt(name, s.ns, p, f);
    hide ServiceValid, DefaultService, BuildService, ChildName, SpecWritten;
  }

  lemma SpecAsBuilt(name: string, ns: string, p: Platform, f: Feature)
    ensures SpecWritten(DefaultService(BuildService(name, ns, p, f)), name, ns, p, f)
  {
  }

  /** Two platforms that build the same spec ask for the same fields. */
  lemma WrittenFollowsBuild(v: Service, name: string, ns: string, p: Platform, ns2: string, q: Platform, f: Feature)
    requires ChildWritten(v, name, ns, p, f) && BuildService(name, ns, p, f) == BuildService(name, ns2, q, f)
    ensures ChildWritten(v, name, ns2, q, f)
  {
  }

  lemma UpsertKeeps(s: Store, name: string, p: Platform, f: Feature, failing: set<Call>)
    requires NoZombies(s) && Admitted(s)
    ensures var t := Upsert(s, name, p, f, failing).0;
            NoZombies(t) && Admitted(t) && OnlyServicesChanged(s, t)
  {
    hide ServiceValid, DefaultService, BuildService, ChildName, Upsert, UpsertValue, SpecAdmitted;
    if Upsert(s, name, p, f, failing).1.Ok? {
      UpsertWrites(s, name, p, f, failing);
      UpsertValueConverges(s, name, p, f);
    }
  }

  /** The loop, key by key: a desired child ends as its last feature wants it, any other key is untouched. */
  lemma {:induction false} UpsertAllSpec(s: Store, name: string, p: Platform, fs: seq<Feature>, failing: set<Call>, n: string)
    requires NoZombies(s) && Admitted(s)
    requires UpsertAll(s, name, p, fs, failing).1.Ok?
    ensures var t := UpsertAll(s, name, p, fs, failing).0;
            if n in DesiredNames(name, fs)
            then Converged(t, name, p, LastFor(name, fs, n).value, n, s.services)
            else SameAt(s, t, n)
    decreases |fs|
  {
    hide ServiceValid, DefaultService, BuildService, ChildName, Upsert, UpsertValue, SpecAdmitted, DesiredNames,
      ConvergedValue, NoZombies, Admitted, ChildWritten;
    if fs == [] {
      NothingDesired(name);
    } else {
      var s1 := Upsert(s, name, p, fs[0], failing).0;
      UpsertWrites(s, name, p, fs[0], failing);
      UpsertValueConverges(s, name, p, fs[0]);
      UpsertKeeps(s, name, p, fs[0], failing);
      UpsertAllSpec(s1, name, p, fs[1..], failing, n);
      UpsertAllKeeps(s1, name, p, fs[1..], failing);
      DesiredNamesCons(name, fs);
      if n == ChildName(name, fs[0].name) && n in DesiredNames(name, fs[1..]) {
        CarriedOn(UpsertAll(s1, name, p, fs[1..], failing).0.services[n], s1.services[n], s, n);
      }
    }
  }

  lemma CarriedOn(v: Service, mid: Service, s: Store, n: string)
    requires Carried(v, mid)
    requires if n in s.services then Carried(mid, s.services[n]) else NewBorn(mid)
    ensures if n in s.services then Carried(v, s.services[n]) else NewBorn(v)
  {
  }

  lemma NothingDesired(name: string)
    ensures DesiredNames(name, []) == {}
  {
  }

  lemma {:induction false} UpsertAllKeeps(s: Store, name: string, p: Platform, fs: seq<Feature>, failing: set<Call>)
    requires NoZombies(s) && Admitted(s)
    ensures var t := UpsertAll(s, name, p, fs, failing).0;
            NoZombies(t) && Admitted(t) && OnlyServicesChanged(s, t)
    decreases |fs|
  {
    hide Upsert, NoZombies, Admitted;
    if fs != [] {
      UpsertKeeps(s, name, p, fs[0], failing);
      UpsertAllKeeps(Upsert(s, name, p, fs[0], failing).0, name, p, fs[1..], failing);
    }
  }

  // ---- the whole of ReconcileFeatures -----------------------------------------------------

  /**
   * The store after a success: every desired child exists, is owned, and carries the defaulted
   * spec of the last feature of its name, with its identity, status, annotations and foreign
   * labels kept; every other owned child is gone or marked for deletion; no other AIService changed.
   */
  ghost predicate FeaturesSettled(s: Store, t: Store, name: string, p: Platform) {
    var desired := DesiredNames(name, p.spec.features);
    && (forall n :: n in desired ==> Converged(t, name, p, LastFor(name, p.spec.features, n).value, n, s.services))
    && (forall n :: n in Owned(t, name) && n !in desired ==> t.services[n].meta.deleting)
    && (forall n :: n in Owned(s, name) && n !in desired ==>
          && (n in t.services <==> s.services[n].meta.finalizers != [])
          && (n in t.services ==> t.services[n] == Marked(s.services[n])))
    && (forall n :: n !in desired && n !in Owned(s, name) ==> SameAt(s, t, n))
  }

  lemma FeaturesConverge(s: Store, name: string, p: Platform, failing: set<Call>, reached: set<string>)
    requires NoZombies(s) && Admitted(s)
    requires ReconcileFeatures(s, name, p, failing, reached).1.Ok?
    ensures var t := ReconcileFeatures(s, name, p, failing, reached).0;
            FeaturesSettled(s, t, name, p) && OnlyServicesChanged(s, t)
  {
    hide UpsertAll, LastFor, DesiredNames, ServiceValid, DefaultService, BuildService, ChildName, Converged, NoZombies, Admitted, SameAt,
      FeaturesSettled, DeleteServices;
    var desired := DesiredNames(name, p.spec.features);
    var u := UpsertAll(s, name, p, p.spec.features, failing).0;
    UpsertAllKeeps(s, name, p, p.spec.features, failing);
    forall n
      ensures if n in desired then Converged(u, name, p, LastFor(name, p.spec.features, n).value, n, s.services)
              else SameAt(s, u, n)
    {
      UpsertAllSpec(s, name, p, p.spec.features, failing, n);
    }
    PruneSettles(s, u, name, p);
    assert OnlyServicesChanged(u, DeleteServices(u, Owned(u, name) - desired)) by { DeletionFrame(u, Owned(u, name) - desired); }
  }

  lemma DeletionFrame(s: Store, names: set<string>)
    ensures OnlyServicesChanged(s, DeleteServices(s, names))
  {
  }

  lemma PruneSettles(s: Store, u: Store, name: string, p: Platform)
    requires u.ns == s.ns
    requires forall n :: if n in DesiredNames(name, p.spec.features)
                         then Converged(u, name, p, LastFor(name, p.spec.features, n).value, n, s.services)
                         else SameAt(s, u, n)
    ensures FeaturesSettled(s, DeleteServices(u, Owned(u, name) - DesiredNames(name, p.spec.features)), name, p)
  {
    hide LastFor, DesiredNames, Converged, DeleteServices, SameAt;
    var desired := DesiredNames(name, p.spec.features);
    var t := DeleteServices(u, Owned(u, name) - desired);
    forall n | n in desired
      ensures Converged(t, name, p, LastFor(name, p.spec.features, n).value, n, s.services)
    {
      ConvergedTransfers(u, t, name, p, LastFor(name, p.spec.features, n).value, n, s.services, Owned(u, name) - desired);
    }
    forall n | n !in desired
      ensures n in Owned(t, name) ==> t.services[n].meta.deleting
      ensures n in Owned(s, name) ==>
                (n in t.services <==> s.services[n].meta.finalizers != []) && (n in t.services ==> t.services[n] == Marked(s.services[n]))
      ensures n !in Owned(s, name) ==> SameAt(s, t, n)
    {
      PrunedAt(s, u, name, desired, n);
    }
  }

  lemma PrunedAt(s: Store, u: Store, name: string, desired: set<string>, n: string)
    requires SameAt(s, u, n) && n !in desired
    ensures var t := DeleteServices(u, Owned(u, name) - desired);
            && (n in Owned(t, name) ==> t.services[n].meta.deleting)
            && (n in Owned(s, name) ==>
                  (n in t.services <==> s.services[n].meta.finalizers != []) && (n in t.services ==> t.services[n] == Marked(s.services[n])))
            && (n !in Owned(s, name) ==> SameAt(s, t, n))
  {
  }

  lemma ConvergedTransfers(u: Store, t: Store, name: string, p: Platform, f: Feature, n: string,
                           before: map<string, Service>, doomed: set<string>)
    requires Converged(u, name, p, f, n, before) && t == DeleteServices(u, doomed) && n !in doomed
    ensures Converged(t, name, p, f, n, before)
  {
    hide ConvergedValue, Carried, NewBorn, ChildWritten;
  }

  /** The i-th feature is the last one whose child is called n. */
  predicate Asks(name: string, fs: seq<Feature>, i: int, n: string) {
    0 <= i < |fs| && n == name + "-" + fs[i].name && forall j :: i < j < |fs| ==> n != name + "-" + fs[j].name
  }

  /** An owned child that was deleted: gone, or marked if a finalizer holds it. */
  predicate Removed(s: Store, t: Store, n: string) {
    n in s.services &&
      if s.services[n].meta.finalizers == [] then n !in t.services
      else && n in t.services && t.services[n].meta.deleting
           && t.services[n] == s.services[n].(meta := s.services[n].meta.(deleting := true, version := t.services[n].meta.version))
           && (s.services[n].meta.deleting ==> t.services[n] == s.services[n])
  }

  /**
   * The child of a feature is stored with every field as the platform and the last feature of its
   * name want it; a child of the platform that no feature asks for is gone, or marked if a
   * finalizer holds it; any other AIService is as it was.
   */
  predicate SettledByName(s: Store, t: Store, name: string, p: Platform, n: string) {
    var fs := p.spec.features;
    && (forall i :: 0 <= i < |fs| && Asks(name, fs, i, n) ==>
          && n in t.services && ChildWritten(t.services[n], name, s.ns, p, fs[i])
          && (if n in s.services then Carried(t.services[n], s.services[n]) else NewBorn(t.services[n])))
    && ((forall i :: 0 <= i < |fs| ==> n != name + "-" + fs[i].name) ==>
          if n in s.services && s.services[n].meta.controller == Some(PlatformOwner(name)) then Removed(s, t, n) else SameAt(s, t, n))
  }

  /** A success, name by name. */
  lemma FeaturesByName(s: Store, name: string, p: Platform, failing: set<Call>, reached: set<string>, n: string)
    requires NoZombies(s) && Admitted(s)
    requires ReconcileFeatures(s, name, p, failing, reached).1.Ok?
    ensures SettledByName(s, ReconcileFeatures(s, name, p, failing, reached).0, name, p, n)
  {
    hide ReconcileFeatures, LastFor, ChildWritten, ConvergedValue, Carried, NewBorn, Admitted, NoZombies, Removed, SameAt, DesiredNames;
    var t, fs := ReconcileFeatures(s, name, p, failing, reached).0, p.spec.features;
    FeaturesConverge(s, name, p, failing, reached);
    forall i | 0 <= i < |fs| && Asks(name, fs, i, n)
      ensures n in DesiredNames(name, fs) && LastFor(name, fs, n) == Some(fs[i])
    {
      LastAsked(name, fs, i, n);
    }
    if forall i :: 0 <= i < |fs| ==> n != name + "-" + fs[i].name {
      hide Asks;
      NotAsked(name, fs, n);
      if n in s.services && s.services[n].meta.controller == Some(PlatformOwner(name)) {
        MarkedIsRemoved(s, t, n);
      }
    }
  }

  lemma MarkedIsRemoved(s: Store, t: Store, n: string)
    requires n in s.services && (n in t.services <==> s.services[n].meta.finalizers != [])
    requires n in t.services ==> t.services[n] == Marked(s.services[n])
    ensures Removed(s, t, n)
  {
  }

  /**
   * The pruning alone, name by name: an owned child that no feature asks for is deleted if all
   * deletes go through, or if its own does and comes before the one that fails; nothing else changes.
   */
  lemma PruneByName(s: Store, name: string, desired: set<string>, failing: set<Call>, reached: set<string>, n: string)
    ensures var (t, o) := Prune(s, name, desired, failing, reached);
            var doomed := n in s.services && s.services[n].meta.controller == Some(PlatformOwner(name)) && n !in desired;
            && (o.Ok? <==> forall k :: k in s.services && s.services[k].meta.controller == Some(PlatformOwner(name)) && k !in desired ==>
                             DeleteChild(k) !in failing)
            && (if doomed && (o.Ok? || (n in reached && DeleteChild(n) !in failing)) then Removed(s, t, n) else SameAt(s, t, n))
  {
    var doomed := Owned(s, name) - desired;
    var blocked := set n | n in doomed && DeleteChild(n) in failing;
    PruneOkIff(s, name, desired, failing, reached);
    DeletionByName(s, doomed, n);
    DeletionByName(s, (doomed - blocked) * reached, n);
    hide DeleteServices, Removed, SameAt;
  }

  lemma PruneOkIff(s: Store, name: string, desired: set<string>, failing: set<Call>, reached: set<string>)
    ensures Prune(s, name, desired, failing, reached).1.Ok? <==>
              forall k :: k in s.services && s.services[k].meta.controller == Some(PlatformOwner(name)) && k !in desired ==>
                DeleteChild(k) !in failing
  {
    hide DeleteServices;
    var doomed := Owned(s, name) - desired;
    var blocked := set n | n in doomed && DeleteChild(n) in failing;
    if k :| k in doomed && DeleteChild(k) in failing {
      assert k in blocked;
    }
  }

  lemma DeletionByName(s: Store, names: set<string>, n: string)
    ensures var t := DeleteServices(s, names);
            if n in names && n in s.services then Removed(s, t, n) else SameAt(s, t, n)
  {
  }

  lemma {:induction false} LastAsked(name: string, fs: seq<Feature>, i: nat, n: string)
    requires Asks(name, fs, i, n)
    ensures LastFor(name, fs, n) == Some(fs[i])
    decreases |fs|
  {
    if i == 0 {
      NotAsked(name, fs[1..], n);
    } else {
      assert forall j :: i - 1 < j < |fs[1..]| ==> fs[1..][j] == fs[j + 1];
      LastAsked(name, fs[1..], i - 1, n);
    }
  }

  lemma NotAsked(name: string, fs: seq<Feature>, n: string)
    requires forall j :: 0 <= j < |fs| ==> n != name + "-" + fs[j].name
    ensures LastFor(name, fs, n) == None && n !in DesiredNames(name, fs)
  {
    assert n !in DesiredNames(name, fs);
  }

  // ---- running it again -------------------------------------------------------------------

  /** A child whose stored form the next upsert would reproduce. */
  predicate Settled(s: Store, name: string, p: Platform, f: Feature) {
    var n := ChildName(name, f.name);
    && n in s.services
    && ConvergedValue(s.services[n], name, s.ns, p, f)
    && ChildWritten(s.services[n], name, s.ns, p, f)
    && ServiceValid(s.services[n].spec)
    && !(s.services[n].meta.deleting && s.services[n].meta.finalizers == [])
  }

  lemma UpsertSettled(s: Store, name: string, p: Platform, f: Feature, failing: set<Call>)
    requires Settled(s, name, p, f)
    ensures Upsert(s, name, p, f, failing).0 == s
    ensures failing == {} ==> Upsert(s, name, p, f, failing).1.Ok?
  {
    hide ServiceValid, DefaultService, ChildName;
    var cur := s.services[ChildName(name, f.name)];
    var want := Desired(cur, s.ns, name, p, f);
    assert want.meta == cur.meta;
    assert DefaultService(want.spec) == cur.spec;
    assert cur.spec.platformRef == want.spec.platformRef && cur.spec.taskVolume == want.spec.taskVolume by {
      DefaultingKeeps(want.spec);
    }
  }

  lemma DefaultingKeeps(v: ServiceSpec)
    ensures DefaultService(v).platformRef == v.platformRef && DefaultService(v).taskVolume == v.taskVolume
    ensures DefaultService(v).serviceAccount == v.serviceAccount && DefaultService(v).vectorDbUrl == v.vectorDbUrl
    ensures DefaultService(v).feature == v.feature
  {
  }

  lemma NeverAsBuilt(v: ServiceSpec)
    requires SpecAdmitted(v)
    ensures v.port != 0
  {
  }

  /** No stored child is ever taken for up to date, and every write is refused. */
  lemma UpsertRefused(s: Store, name: string, p: Platform, f: Feature, failing: set<Call>)
    requires Admitted(s) && !ServiceValid(DefaultService(BuildService(name, s.ns, p, f)))
    ensures !Upsert(s, name, p, f, failing).1.Ok?
  {
    var n, spec := ChildName(name, f.name), BuildService(name, s.ns, p, f);
    assert spec.port == 0;
    if n in s.services {
      assert SpecAdmitted(s.services[n].spec);
      NeverAsBuilt(s.services[n].spec);
      UpdateNeedsValid(s, n, Desired(s.services[n], s.ns, name, p, f));
    }
    hide ServiceValid, DefaultService, BuildService, ChildName, Admitted, UpdateService, SpecAdmitted;
  }

  lemma UpdateNeedsValid(s: Store, n: string, v: Service)
    ensures UpdateService(s, n, v).1.Ok? ==> ServiceValid(DefaultService(v.spec))
  {
    hide ServiceValid, DefaultService;
  }

  lemma {:induction false} UpsertAllIdle(s: Store, name: string, p: Platform, fs: seq<Feature>, failing: set<Call>)
    requires forall i :: 0 <= i < |fs| ==> Settled(s, name, p, fs[i])
    ensures UpsertAll(s, name, p, fs, failing).0 == s
    ensures failing == {} ==> UpsertAll(s, name, p, fs, failing).1.Ok?
    decreases |fs|
  {
    hide Upsert, Settled;
    if fs != [] {
      UpsertSettled(s, name, p, fs[0], failing);
      forall i | 0 <= i < |fs[1..]| ensures Settled(s, name, p, fs[1..][i]) {
        assert fs[1..][i] == fs[i + 1];
      }
      UpsertAllIdle(s, name, p, fs[1..], failing);
    }
  }

  /** With distinct names, the last feature of a child's name is the one at its own index. */
  lemma {:induction false} LastForDistinct(name: string, fs: seq<Feature>, i: nat)
    requires FeatureNamesDistinct(fs) && i < |fs|
    ensures LastFor(name, fs, ChildName(name, fs[i].name)) == Some(fs[i])
  {
    var n := ChildName(name, fs[i].name);
    assert n in DesiredNames(name, fs);
    var last := LastFor(name, fs, n).value;
    var j :| 0 <= j < |fs| && fs[j] == last;
    ChildNameCancels(name, fs[i].name, fs[j].name);
  }

  lemma ChildNameCancels(name: string, f: string, g: string)
    requires ChildName(name, f) == ChildName(name, g)
    ensures f == g
  {
    assert ChildName(name, f)[|name| + 1..] == f && ChildName(name, g)[|name| + 1..] == g;
  }

  lemma EveryFeatureSettled(s: Store, name: string, p: Platform, failing: set<Call>, reached: set<string>, i: nat)
    requires NoZombies(s) && Admitted(s) && FeatureNamesDistinct(p.spec.features) && i < |p.spec.features|
    requires ReconcileFeatures(s, name, p, failing, reached).1.Ok?
    ensures Settled(ReconcileFeatures(s, name, p, failing, reached).0, name, p, p.spec.features[i])
  {
    hide ReconcileFeatures, LastFor, ServiceValid, DefaultService, BuildService, ConvergedValue, ChildWritten, ChildName, Carried;
    var t := ReconcileFeatures(s, name, p, failing, reached).0;
    var n := ChildName(name, p.spec.features[i].name);
    FeaturesConverge(s, name, p, failing, reached);
    FeaturesKeep(s, name, p, failing, reached);
    LastForDistinct(name, p.spec.features, i);
    assert n in DesiredNames(name, p.spec.features);
    assert SpecAdmitted(t.services[n].spec);
  }

  lemma FeaturesKeep(s: Store, name: string, p: Platform, failing: set<Call>, reached: set<string>)
    requires NoZombies(s) && Admitted(s)
    ensures var t := ReconcileFeatures(s, name, p, failing, reached).0;
            NoZombies(t) && Admitted(t) && OnlyServicesChanged(s, t)
  {
    hide UpsertAll, Admitted, NoZombies, DesiredNames, DeleteServices, Owned;
    UpsertAllKeeps(s, name, p, p.spec.features, failing);
    var s1 := UpsertAll(s, name, p, p.spec.features, failing).0;
    var doomed := Owned(s1, name) - DesiredNames(name, p.spec.features);
    DeletionKeeps(s1, doomed);
    DeletionKeeps(s1, (doomed - (set n | n in doomed && DeleteChild(n) in failing)) * reached);
  }

  lemma DeletionKeeps(s: Store, names: set<string>)
    requires NoZombies(s) && Admitted(s)
    ensures var t := DeleteServices(s, names);
            NoZombies(t) && Admitted(t) && OnlyServicesChanged(s, t)
  {
    hide SpecAdmitted;
  }

  /** A store whose desired children are settled and whose other owned children are going is left as it is. */
  lemma SettledRunIdle(t: Store, name: string, p: Platform, failing: set<Call>, reached: set<string>)
    requires NoZombies(t)
    requires forall i :: 0 <= i < |p.spec.features| ==> Settled(t, name, p, p.spec.features[i])
    requires forall n :: n in Owned(t, name) && n !in DesiredNames(name, p.spec.features) ==> t.services[n].meta.deleting
    ensures ReconcileFeatures(t, name, p, failing, reached).0 == t
    ensures failing == {} ==> ReconcileFeatures(t, name, p, failing, reached).1.Ok?
  {
    hide UpsertAll, Settled, NoZombies, DeleteServices, DesiredNames;
    UpsertAllIdle(t, name, p, p.spec.features, failing);
    var doomed := Owned(t, name) - DesiredNames(name, p.spec.features);
    var blocked := set n | n in doomed && DeleteChild(n) in failing;
    DeletionsRepeat(t, doomed);
    DeletionsRepeat(t, (doomed - blocked) * reached);
    if failing == {} {
      assert blocked == {};
    }
  }

  /**
   * Once it succeeded, ReconcileFeatures is idle: repeating it with the same platform, under
   * whatever client failures, leaves the store as it is, and succeeds if no call fails.
   */
  lemma SecondRunIdle(s: Store, name: string, p: Platform, failing: set<Call>, reached: set<string>,
                      failing2: set<Call>, reached2: set<string>)
    requires NoZombies(s) && Admitted(s) && FeatureNamesDistinct(p.spec.features)
    requires ReconcileFeatures(s, name, p, failing, reached).1.Ok?
    ensures var t := ReconcileFeatures(s, name, p, failing, reached).0;
            && ReconcileFeatures(t, name, p, failing2, reached2).0 == t
            && (failing2 == {} ==> ReconcileFeatures(t, name, p, failing2, reached2).1.Ok?)
  {
    hide ReconcileFeatures, Settled, Admitted, NoZombies, DesiredNames, Converged, SameAt;
    var t := ReconcileFeatures(s, name, p, failing, reached).0;
    FeaturesConverge(s, name, p, failing, reached);
    FeaturesKeep(s, name, p, failing, reached);
    forall i | 0 <= i < |p.spec.features| ensures Settled(t, name, p, p.spec.features[i]) {
      EveryFeatureSettled(s, name, p, failing, reached, i);
    }
    SettledRunIdle(t, name, p, failing2, reached2);
  }

  lemma DeletionsRepeat(t: Store, names: set<string>)
    requires NoZombies(t)
    requires forall n :: n in names && n in t.services ==> t.services[n].meta.deleting
    ensures DeleteServices(t, names) == t
  {
    assert DeleteServices(t, names).services == t.services;
  }

  /**
   * A run for one platform leaves every AIService that another owner controls untouched,
   * whatever its name and however the run ends.
   */
  lemma ForeignChildrenUntouched(s: Store, name: string, p: Platform, failing: set<Call>, reached: set<string>, n: string)
    requires n in s.services && s.services[n].meta.controller.Some? && !OwnedBy(s.services[n], name)
    ensures SameAt(s, ReconcileFeatures(s, name, p, failing, reached).0, n)
  {
    hide UpsertAll, DesiredNames;
    UpsertAllLeavesForeign(s, name, p, p.spec.features, failing, n);
  }

  lemma {:induction false} UpsertAllLeavesForeign(s: Store, name: string, p: Platform, fs: seq<Feature>, failing: set<Call>, n: string)
    requires n in s.services && s.services[n].meta.controller.Some? && !OwnedBy(s.services[n], name)
    ensures SameAt(s, UpsertAll(s, name, p, fs, failing).0, n)
    decreases |fs|
  {
    hide Upsert;
    if fs != [] {
      UpsertLeavesForeign(s, name, p, fs[0], failing, n);
      UpsertAllLeavesForeign(Upsert(s, name, p, fs[0], failing).0, name, p, fs[1..], failing, n);
    }
  }

  lemma UpsertLeavesForeign(s: Store, name: string, p: Platform, f: Feature, failing: set<Call>, n: string)
    requires n in s.services && s.services[n].meta.controller.Some? && !OwnedBy(s.services[n], name)
    ensures SameAt(s, Upsert(s, name, p, f, failing).0, n)
  {
    hide DefaultService, BuildService, ChildName, CreateService, UpdateService, Desired;
    var child := ChildName(name, f.name);
    if n != child {
      if child in s.services {
        UpdateTouchesOneKey(s, child, Desired(s.services[child], s.ns, name, p, f), n);
      } else {
        CreateTouchesOneKey(s, child, NewChildMeta(name, f), BuildService(name, s.ns, p, f), n);
      }
    }
  }

  lemma UpdateTouchesOneKey(s: Store, name: string, v: Service, n: string)
    requires n != name
    ensures SameAt(s, UpdateService(s, name, v).0, n)
  {
    hide ServiceValid, DefaultService;
  }

  lemma CreateTouchesOneKey(s: Store, name: string, meta: Meta, spec: ServiceSpec, n: string)
    requires n != name
    ensures SameAt(s, CreateService(s, name, meta, spec).0, n)
  {
    hide ServiceValid, DefaultService;
  }
}
