/**
 * The two condition engines of the Ray builder: seven conditions upserted into the platform's
 * list together with events on every change, and the smaller roll-up in raystatus.
 */
module RayConditions {
  import opened Api
  import opened StageRunner

  datatype Snapshot = Snapshot(
    serviceReady: bool,
    running: bool,
    upgrading: bool,
    headPodReady: bool,
    desiredWorkers: int,
    availableWorkers: int,
    serveBackend: bool,
    endpoints: bool)

  /** A collected snapshot, the vector database check, and the texts the source formats. */
  datatype Report = Report(snap: Snapshot, weaviateReady: bool,
                           serviceText: string, endpointText: string, clusterText: string, serveText: string,
                           weaviateText: string, readyText: string)

  datatype Event = Event(normal: bool, reason: string)

  /** The conditions whose changes are announced, with their two events. */
  const KINDS := ["RayServiceReady", "RayClusterReady", "RayServeRouteReady", "WeaviateDatabaseReady", "Ready"]
  const READY_EVENTS := ["RayServiceReady", "RayClusterReady", "RayServeReady", "WeaviateReady", "PlatformReady"]
  const NOT_READY_EVENTS := ["RayServiceNotReady", "RayClusterNotReady", "RayServeNotReady", "WeaviateNotReady", "PlatformDegraded"]
  const UPGRADE := "RayServiceUpgradeInProgress"
  const ENDPOINTS := "RayEndpointsDiscovered"

  function ServiceOk(s: Snapshot): bool {
    s.serviceReady || s.running
  }

  function ClusterOk(s: Snapshot): bool {
    s.headPodReady && s.desiredWorkers == s.availableWorkers
  }

  /** What the k-th announced condition is set to. */
  function Healthy(r: Report, k: nat): bool
    requires k < |KINDS|
  {
    if k == 0 then ServiceOk(r.snap)
    else if k == 1 then ClusterOk(r.snap)
    else if k == 2 then r.snap.serveBackend
    else if k == 3 then r.weaviateReady
    else ServiceOk(r.snap) && ClusterOk(r.snap) && r.snap.serveBackend && r.weaviateReady
  }

  // ---- the condition list ---------------------------------------------------------------------------

  /** SetStatusCondition: the first entry of that type is overwritten, a new type is appended. */
  function SetCondition(cs: seq<Condition>, c: Condition): seq<Condition> {
    if cs == [] then [c]
    else if cs[0].kind == c.kind then [c] + cs[1..]
    else [cs[0]] + SetCondition(cs[1..], c)
  }

  /** The status of the first entry of that type. */
  function StatusOf(cs: seq<Condition>, kind: string): Status {
    if cs == [] then Unknown
    else if cs[0].kind == kind then cs[0].status
    else StatusOf(cs[1..], kind)
  }

  function Holds(ok: bool): Status {
    if ok then True else False
  }

  lemma {:induction false} SetStatus(cs: seq<Condition>, c: Condition, kind: string)
    ensures StatusOf(SetCondition(cs, c), kind) == if kind == c.kind then c.status else StatusOf(cs, kind)
  {
    if cs == [] {
      assert SetCondition(cs, c)[1..] == [];
    } else if cs[0].kind == c.kind {
      assert SetCondition(cs, c)[1..] == cs[1..];
    } else {
      assert SetCondition(cs, c)[1..] == SetCondition(cs[1..], c);
      SetStatus(cs[1..], c, kind);
    }
  }

  predicate HasKind(cs: seq<Condition>, kind: string) {
    exists i :: 0 <= i < |cs| && cs[i].kind == kind
  }

  lemma {:induction false} SetKinds(cs: seq<Condition>, c: Condition)
    requires TypesDistinct(cs)
    ensures TypesDistinct(SetCondition(cs, c))
    ensures forall i :: 0 <= i < |SetCondition(cs, c)| ==>
              SetCondition(cs, c)[i].kind == c.kind || HasKind(cs, SetCondition(cs, c)[i].kind)
  {
    if cs == [] {
    } else if cs[0].kind == c.kind {
      forall i | 0 <= i < |SetCondition(cs, c)| ensures HasKind(cs, SetCondition(cs, c)[i].kind) {
        assert SetCondition(cs, c)[i].kind == cs[i].kind;
      }
    } else {
      assert TypesDistinct(cs[1..]);
      SetKinds(cs[1..], c);
      var rest := SetCondition(cs[1..], c);
      assert SetCondition(cs, c) == [cs[0]] + rest;
      forall i | 0 <= i < |rest|
        ensures rest[i].kind != cs[0].kind
        ensures rest[i].kind == c.kind || HasKind(cs, rest[i].kind)
      {
        if rest[i].kind != c.kind {
          var j :| 0 <= j < |cs[1..]| && cs[1..][j].kind == rest[i].kind;
          assert cs[j + 1].kind == rest[i].kind;
        }
      }
      assert cs[0].kind == [cs[0]][0].kind && HasKind(cs, cs[0].kind);
    }
  }

  // ---- one call ---------------------------------------------------------------------------------------

  function ServiceCondition(r: Report): Condition {
    Condition("RayServiceReady", Holds(ServiceOk(r.snap)), if ServiceOk(r.snap) then "Ready" else "NotReady", r.serviceText)
  }

  function UpgradeCondition(s: Snapshot): Condition {
    Condition(UPGRADE, Holds(s.upgrading), if s.upgrading then "Upgrading" else "Idle",
              "Zero-downtime upgrade status as reported by KubeRay")
  }

  function EndpointsCondition(r: Report): Condition {
    Condition(ENDPOINTS, Holds(r.snap.endpoints), if r.snap.endpoints then "Found" else "Missing", r.endpointText)
  }

  function ClusterCondition(s: Snapshot, text: string): Condition {
    Condition("RayClusterReady", Holds(ClusterOk(s)), if ClusterOk(s) then "AllPodsReady" else "PodsNotReady", text)
  }

  function ServeCondition(s: Snapshot, text: string): Condition {
    Condition("RayServeRouteReady", Holds(s.serveBackend), if s.serveBackend then "EndpointsAvailable" else "NoEndpoints", text)
  }

  function WeaviateCondition(r: Report): Condition {
    Condition("WeaviateDatabaseReady", Holds(r.weaviateReady), if r.weaviateReady then "Ready" else "NotReady", r.weaviateText)
  }

  function ReadyCondition(r: Report): Condition {
    Condition("Ready", Holds(Healthy(r, 4)), if Healthy(r, 4) then "AllHealthy" else "Degraded", r.readyText)
  }

  function SetAll(cs: seq<Condition>, new_: seq<Condition>): seq<Condition>
    decreases |new_|
  {
    if new_ == [] then cs else SetAll(SetCondition(cs, new_[0]), new_[1..])
  }

  function Reported(r: Report): seq<Condition> {
    [ServiceCondition(r), UpgradeCondition(r.snap), EndpointsCondition(r), ClusterCondition(r.snap, r.clusterText),
     ServeCondition(r.snap, r.serveText), WeaviateCondition(r), ReadyCondition(r)]
  }

  /** What a snapshot that cannot be collected writes. */
  const FETCH_FAILED := [
    Condition("RayServiceReady", False, "RayServiceFetchError", "Failed to collect Ray snapshot"),
    Condition("Ready", False, "RayUnhealthy", "Failed to collect Ray snapshot")]

  function Applied(cs: seq<Condition>, r: Option<Report>): seq<Condition> {
    SetAll(cs, if r.Some? then Reported(r.value) else FETCH_FAILED)
  }

  function Announced(before: Status, ok: bool, k: nat): seq<Event>
    requires k < |KINDS|
  {
    if ok && before != True then [Event(true, READY_EVENTS[k])]
    else if !ok && before == True then [Event(false, NOT_READY_EVENTS[k])]
    else []
  }

  function AnnouncedFor(cs: seq<Condition>, r: Report, k: nat): seq<Event>
    requires k < |KINDS|
  {
    Announced(StatusOf(cs, KINDS[k]), Healthy(r, k), k)
  }

  function Emitted(cs: seq<Condition>, r: Option<Report>): seq<Event> {
    if r.Some? then
      AnnouncedFor(cs, r.value, 0) + AnnouncedFor(cs, r.value, 1) + AnnouncedFor(cs, r.value, 2) + AnnouncedFor(cs, r.value, 3)
      + AnnouncedFor(cs, r.value, 4)
    else [Event(false, "RayServiceError")]
  }

  /** The object whose status the builder updates, with its event recorder. */
  class PlatformStatusObject {
    var conditions: seq<Condition>
    var events: seq<Event>

    constructor (cs: seq<Condition>)
      ensures conditions == cs && events == []
    {
      conditions, events := cs, [];
    }

    method Set(c: Condition)
      modifies this`conditions
      ensures conditions == SetCondition(old(conditions), c)
    {
      var cs := conditions;
      assert cs[..0] == [] && cs[0..] == cs;
      for i := 0 to |cs|
        invariant conditions == cs
        invariant SetCondition(cs, c) == cs[..i] + SetCondition(cs[i..], c)
      {
        if cs[i].kind == c.kind {
          conditions := cs[..i] + [c] + cs[i + 1..];
          assert cs[i..][1..] == cs[i + 1..];
          return;
        }
        SkipOne(cs, c, i);
      }
      assert cs[..|cs|] == cs && cs[|cs|..] == [];
      conditions := cs + [c];
    }

    method GetConditionStatus(kind: string) returns (s: Status)
      ensures s == StatusOf(conditions, kind)
    {
      assert conditions[0..] == conditions;
      for i := 0 to |conditions|
        invariant StatusOf(conditions, kind) == StatusOf(conditions[i..], kind)
      {
        assert conditions[i..][1..] == conditions[i + 1..];
        if conditions[i].kind == kind {
          return conditions[i].status;
        }
      }
      return Unknown;
    }

    /** An event only when the condition's status changes, then the condition itself. */
    method AnnounceAndSet(k: nat, ok: bool, c: Condition)
      requires k < |KINDS| && c.kind == KINDS[k]
      modifies this
      ensures conditions == SetCondition(old(conditions), c)
      ensures events == old(events) + Announced(StatusOf(old(conditions), KINDS[k]), ok, k)
    {
      var previous := GetConditionStatus(KINDS[k]);
      if ok && previous != True {
        events := events + [Event(true, READY_EVENTS[k])];
      } else if !ok && previous == True {
        events := events + [Event(false, NOT_READY_EVENTS[k])];
      }
      Set(c);
    }

    method ApplyNormalizedConditions(r: Option<Report>)
      modifies this
      ensures conditions == Applied(old(conditions), r) && ConditionsSay(conditions, r)
      ensures events == old(events) + Emitted(old(conditions), r)
    {
      hide ConditionsSay;
      ConditionsAre(conditions, r);
      hide SetCondition, StatusOf, SetAll, Healthy, ServiceOk, ClusterOk;
      ghost var cs := conditions;
      if r.None? {
        Set(FETCH_FAILED[0]);
        Set(FETCH_FAILED[1]);
        events := events + [Event(false, "RayServiceError")];
        SetAllTwo(cs, FETCH_FAILED);
        return;
      }
      ApplyReport(r.value);
    }

    method ApplyReport(r: Report)
      modifies this
      ensures conditions == SetAll(old(conditions), Reported(r))
      ensures events == old(events) + Emitted(old(conditions), Some(r))
    {
      hide SetCondition, StatusOf, SetAll, ServiceOk, ClusterOk, Announced, ServiceCondition, UpgradeCondition, EndpointsCondition,
        ClusterCondition, ServeCondition, WeaviateCondition, ReadyCondition, Reported;
      ghost var cs, new_ := conditions, Reported(r);
      var s := r.snap;
      SevenReported(r);
      SetSteps(cs, new_, 0);
      AnnounceAndSet(0, ServiceOk(s), ServiceCondition(r));
      SetSteps(cs, new_, 1);
      Set(UpgradeCondition(s));
      SetSteps(cs, new_, 2);
      Set(EndpointsCondition(r));
      UntouchedSoFar(cs, r, 3, 1);
      SetSteps(cs, new_, 3);
      AnnounceAndSet(1, ClusterOk(s), ClusterCondition(s, r.clusterText));
      UntouchedSoFar(cs, r, 4, 2);
      SetSteps(cs, new_, 4);
      AnnounceAndSet(2, s.serveBackend, ServeCondition(s, r.serveText));
      UntouchedSoFar(cs, r, 5, 3);
      SetSteps(cs, new_, 5);
      AnnounceAndSet(3, r.weaviateReady, WeaviateCondition(r));
      var platformReady := ServiceOk(s) && ClusterOk(s) && s.serveBackend && r.weaviateReady;
      UntouchedSoFar(cs, r, 6, 4);
      SetSteps(cs, new_, 6);
      AnnounceAndSet(4, platformReady, ReadyCondition(r));
      assert new_[..7] == new_;
    }
  }

  lemma SkipOne(cs: seq<Condition>, c: Condition, i: nat)
    requires i < |cs| && cs[i].kind != c.kind
    ensures cs[..i] + SetCondition(cs[i..], c) == cs[..i + 1] + SetCondition(cs[i + 1..], c)
  {
    assert cs[i..][1..] == cs[i + 1..];
    var rest := SetCondition(cs[i + 1..], c);
    assert SetCondition(cs[i..], c) == [cs[i]] + rest;
    hide SetCondition;
    assert cs[..i] + ([cs[i]] + rest) == cs[..i + 1] + rest;
  }

  lemma SevenReported(r: Report)
    ensures |Reported(r)| == 7 == |WRITTEN|
    ensures forall i :: 0 <= i < 7 ==> Reported(r)[i].kind == WRITTEN[i]
    ensures Reported(r)[0] == ServiceCondition(r) && Reported(r)[0].kind == KINDS[0]
    ensures Reported(r)[1] == UpgradeCondition(r.snap) && Reported(r)[2] == EndpointsCondition(r)
    ensures Reported(r)[3] == ClusterCondition(r.snap, r.clusterText) && Reported(r)[3].kind == KINDS[1]
    ensures Reported(r)[4] == ServeCondition(r.snap, r.serveText) && Reported(r)[4].kind == KINDS[2]
    ensures Reported(r)[5] == WeaviateCondition(r) && Reported(r)[5].kind == KINDS[3]
    ensures Reported(r)[6] == ReadyCondition(r) && Reported(r)[6].kind == KINDS[4]
  {
  }

  lemma SetAllTwo(cs: seq<Condition>, new_: seq<Condition>)
    requires |new_| == 2
    ensures SetAll(cs, new_) == SetCondition(SetCondition(cs, new_[0]), new_[1])
  {
    assert new_[1..][1..] == [];
    assert SetAll(cs, new_) == SetAll(SetCondition(cs, new_[0]), new_[1..]);
    assert SetAll(SetCondition(cs, new_[0]), new_[1..]) == SetAll(SetCondition(SetCondition(cs, new_[0]), new_[1]), []);
  }

  lemma {:induction false} SetAllSnoc(cs: seq<Condition>, new_: seq<Condition>, c: Condition)
    ensures SetAll(cs, new_ + [c]) == SetCondition(SetAll(cs, new_), c)
    decreases |new_|
  {
    if new_ == [] {
      assert [c][1..] == [];
    } else {
      assert (new_ + [c])[1..] == new_[1..] + [c];
      SetAllSnoc(SetCondition(cs, new_[0]), new_[1..], c);
    }
  }

  lemma SetSteps(cs: seq<Condition>, new_: seq<Condition>, i: nat)
    requires i < |new_|
    ensures SetAll(cs, new_[..i + 1]) == SetCondition(SetAll(cs, new_[..i]), new_[i])
    ensures i == 0 ==> SetAll(cs, new_[..i]) == cs
  {
    assert new_[..i + 1] == new_[..i] + [new_[i]];
    SetAllSnoc(cs, new_[..i], new_[i]);
  }

  lemma {:induction false} SetAllStatus(cs: seq<Condition>, new_: seq<Condition>, kind: string)
    requires !HasKind(new_, kind)
    ensures StatusOf(SetAll(cs, new_), kind) == StatusOf(cs, kind)
    decreases |new_|
  {
    if new_ != [] {
      assert new_[0].kind != kind;
      assert forall i :: 0 <= i < |new_[1..]| ==> new_[1..][i] == new_[i + 1];
      SetStatus(cs, new_[0], kind);
      SetAllStatus(SetCondition(cs, new_[0]), new_[1..], kind);
    }
  }

  /** The types in the order they are written. */
  const WRITTEN := [KINDS[0], UPGRADE, ENDPOINTS, KINDS[1], KINDS[2], KINDS[3], KINDS[4]]

  /** The seven types differ, so a status read between two writes is the one from before the call. */
  lemma KindsApart()
    ensures forall i, j :: 0 <= i < j < |WRITTEN| ==> WRITTEN[i] != WRITTEN[j]
  {
    assert |KINDS[0]| == 15 && |UPGRADE| == 27 && |ENDPOINTS| == 22 && |KINDS[1]| == 15 && |KINDS[2]| == 18 && |KINDS[3]| == 21 && |KINDS[4]| == 5;
    assert KINDS[0][3] != KINDS[1][3];
  }

  lemma UntouchedSoFar(cs: seq<Condition>, r: Report, i: nat, k: nat)
    requires (i == 3 && k == 1) || (i == 4 && k == 2) || (i == 5 && k == 3) || (i == 6 && k == 4)
    ensures StatusOf(SetAll(cs, Reported(r)[..i]), KINDS[k]) == StatusOf(cs, KINDS[k])
  {
    KindsApart();
    SevenReported(r);
    hide Reported, SetAll, StatusOf;
    var prefix := Reported(r)[..i];
    assert WRITTEN[i] == KINDS[k];
    forall j | 0 <= j < |prefix| ensures prefix[j].kind != KINDS[k] {
      assert prefix[j].kind == WRITTEN[j];
    }
    SetAllStatus(cs, prefix, KINDS[k]);
  }

  // ---- what one call leaves ------------------------------------------------------------------------------

  lemma {:induction false} SetAllDistinct(cs: seq<Condition>, new_: seq<Condition>)
    requires TypesDistinct(cs)
    ensures TypesDistinct(SetAll(cs, new_))
    decreases |new_|
  {
    if new_ != [] {
      SetKinds(cs, new_[0]);
      SetAllDistinct(SetCondition(cs, new_[0]), new_[1..]);
    }
  }

  lemma TypesStayDistinct(cs: seq<Condition>, r: Option<Report>)
    requires TypesDistinct(cs)
    ensures TypesDistinct(Applied(cs, r))
  {
    hide Reported, FETCH_FAILED;
    SetAllDistinct(cs, if r.Some? then Reported(r.value) else FETCH_FAILED);
  }

  lemma {:induction false} SetAllSets(cs: seq<Condition>, new_: seq<Condition>, i: nat)
    requires TypesDistinct(new_) && i < |new_|
    ensures StatusOf(SetAll(cs, new_), new_[i].kind) == new_[i].status
    decreases |new_|
  {
    var rest := new_[1..];
    assert forall j :: 0 <= j < |rest| ==> rest[j] == new_[j + 1];
    if i == 0 {
      SetAllStatus(SetCondition(cs, new_[0]), rest, new_[0].kind);
      SetStatus(cs, new_[0], new_[0].kind);
    } else {
      SetAllSets(SetCondition(cs, new_[0]), rest, i - 1);
    }
  }

  lemma ReportedDistinct(r: Report)
    ensures TypesDistinct(Reported(r))
  {
    KindsApart();
    SevenReported(r);
    hide Reported;
  }

  /** The index in Reported of the k-th announced condition. */
  function Slot(k: nat): nat
    requires k < |KINDS|
  {
    if k == 0 then 0 else k + 2
  }

  /** After a call that collected, each announced condition says what the snapshot says. */
  lemma StatusAfter(cs: seq<Condition>, r: Report, k: nat)
    requires k < |KINDS|
    ensures StatusOf(Applied(cs, Some(r)), KINDS[k]) == Holds(Healthy(r, k))
  {
    hide SetAll, StatusOf, TypesDistinct;
    SevenReported(r);
    ReportedDistinct(r);
    SetAllSets(cs, Reported(r), Slot(k));
  }

  /** Ready is published True exactly when the four component conditions are. */
  lemma ReadyIffComponents(cs: seq<Condition>, r: Report)
    ensures var after := Applied(cs, Some(r));
            StatusOf(after, "Ready") == True <==>
              && StatusOf(after, "RayServiceReady") == True && StatusOf(after, "RayClusterReady") == True
              && StatusOf(after, "RayServeRouteReady") == True && StatusOf(after, "WeaviateDatabaseReady") == True
  {
    hide Applied, StatusOf;
    StatusAfter(cs, r, 0);
    StatusAfter(cs, r, 1);
    StatusAfter(cs, r, 2);
    StatusAfter(cs, r, 3);
    StatusAfter(cs, r, 4);
  }

  // ---- one call, condition by condition ----------------------------------------------------------------------

  /** c is the first entry of its type. */
  predicate First(cs: seq<Condition>, c: Condition) {
    exists i :: 0 <= i < |cs| && cs[i] == c && forall j :: 0 <= j < i ==> cs[j].kind != c.kind
  }

  lemma FirstStep(cs: seq<Condition>, c: Condition)
    requires cs != []
    ensures First(cs, c) <==> cs[0] == c || (cs[0].kind != c.kind && First(cs[1..], c))
  {
    var rest := cs[1..];
    if i :| 0 <= i < |cs| && cs[i] == c && forall j :: 0 <= j < i ==> cs[j].kind != c.kind {
      if i > 0 {
        assert rest[i - 1] == c && forall j :: 0 <= j < i - 1 ==> rest[j] == cs[j + 1];
      }
    }
    if cs[0].kind != c.kind {
      if i :| 0 <= i < |rest| && rest[i] == c && forall j :: 0 <= j < i ==> rest[j].kind != c.kind {
        assert cs[i + 1] == c && forall j :: 0 < j < i + 1 ==> cs[j] == rest[j - 1];
      }
    }
  }

  /** Setting a condition makes it the first of its type and leaves the first of every other type as it is. */
  lemma {:induction false} SetFirst(cs: seq<Condition>, c: Condition, d: Condition)
    ensures First(SetCondition(cs, c), d) <==> if d.kind == c.kind then d == c else First(cs, d)
  {
    hide First;
    FirstStep(SetCondition(cs, c), d);
    assert First([], d) == false by { NoneFirst(d); }
    if cs == [] {
      assert SetCondition(cs, c)[1..] == [];
    } else {
      FirstStep(cs, d);
      if cs[0].kind == c.kind {
        assert SetCondition(cs, c)[1..] == cs[1..];
      } else {
        assert SetCondition(cs, c)[1..] == SetCondition(cs[1..], c);
        SetFirst(cs[1..], c, d);
      }
    }
  }

  /** Every entry keeps its place and its type; a new type comes last. */
  lemma {:induction false} SetPlaces(cs: seq<Condition>, c: Condition)
    ensures |SetCondition(cs, c)| == |cs| + (if HasKind(cs, c.kind) then 0 else 1)
    ensures forall i :: 0 <= i < |cs| ==>
              SetCondition(cs, c)[i].kind == cs[i].kind && (cs[i].kind != c.kind ==> SetCondition(cs, c)[i] == cs[i])
    ensures !HasKind(cs, c.kind) ==> SetCondition(cs, c)[|cs|] == c
  {
    hide HasKind;
    if cs == [] {
      assert !HasKind(cs, c.kind) by { NoKind(c.kind); }
    } else {
      HasKindStep(cs, c.kind);
      if cs[0].kind != c.kind {
        SetPlaces(cs[1..], c);
        assert SetCondition(cs, c) == [cs[0]] + SetCondition(cs[1..], c);
      }
    }
  }

  lemma NoKind(kind: string)
    ensures !HasKind([], kind)
  {
  }

  lemma NoneFirst(d: Condition)
    ensures !First([], d)
  {
  }

  lemma {:induction false} SetAllFirst(cs: seq<Condition>, new_: seq<Condition>, d: Condition)
    requires TypesDistinct(new_)
    ensures First(SetAll(cs, new_), d) <==> if HasKind(new_, d.kind) then d in new_ else First(cs, d)
    decreases |new_|
  {
    hide First, SetCondition;
    if new_ != [] {
      var rest := new_[1..];
      assert forall j :: 0 <= j < |rest| ==> rest[j] == new_[j + 1];
      SetAllFirst(SetCondition(cs, new_[0]), rest, d);
      SetFirst(cs, new_[0], d);
      if HasKind(rest, d.kind) {
        var j :| 0 <= j < |rest| && rest[j].kind == d.kind;
        assert new_[j + 1].kind == d.kind && new_[0].kind != d.kind;
      } else if new_[0].kind == d.kind {
        assert HasKind(new_, d.kind) && d !in rest;
      } else {
        forall j | 0 <= j < |new_| ensures new_[j].kind != d.kind {
          assert j > 0 ==> new_[j] == rest[j - 1];
        }
      }
    }
  }

  /** What the list says first under that type. */
  predicate Says(cs: seq<Condition>, kind: string, ok: bool, yes: string, no: string) {
    exists i :: 0 <= i < |cs| && cs[i].kind == kind && cs[i].status == (if ok then True else False) && cs[i].reason == (if ok then yes else no)
                && forall j :: 0 <= j < i ==> cs[j].kind != kind
  }

  lemma FirstSays(cs: seq<Condition>, c: Condition, ok: bool, yes: string, no: string)
    requires First(cs, c) && c.status == Holds(ok) && c.reason == (if ok then yes else no)
    ensures Says(cs, c.kind, ok, yes, no)
  {
  }

  /** The seven conditions in terms of the snapshot, and the two that a failed collection writes. */
  predicate ConditionsSay(cs: seq<Condition>, r: Option<Report>) {
    if r.None? then
      && Says(cs, "RayServiceReady", false, "", "RayServiceFetchError")
      && Says(cs, "Ready", false, "", "RayUnhealthy")
    else
      var s := r.value.snap;
      && Says(cs, "RayServiceReady", s.serviceReady || s.running, "Ready", "NotReady")
      && Says(cs, "RayServiceUpgradeInProgress", s.upgrading, "Upgrading", "Idle")
      && Says(cs, "RayEndpointsDiscovered", s.endpoints, "Found", "Missing")
      && Says(cs, "RayClusterReady", s.headPodReady && s.desiredWorkers == s.availableWorkers, "AllPodsReady", "PodsNotReady")
      && Says(cs, "RayServeRouteReady", s.serveBackend, "EndpointsAvailable", "NoEndpoints")
      && Says(cs, "WeaviateDatabaseReady", r.value.weaviateReady, "Ready", "NotReady")
      && Says(cs, "Ready",
              (s.serviceReady || s.running) && s.headPodReady && s.desiredWorkers == s.availableWorkers && s.serveBackend && r.value.weaviateReady,
              "AllHealthy", "Degraded")
  }

  predicate BuilderKind(kind: string) {
    kind in {"RayServiceReady", "RayServiceUpgradeInProgress", "RayEndpointsDiscovered", "RayClusterReady", "RayServeRouteReady",
             "WeaviateDatabaseReady", "Ready"}
  }

  /** One call on any list: these entries come first under their types, and other types keep theirs. */
  lemma ConditionsAre(cs: seq<Condition>, r: Option<Report>)
    ensures ConditionsSay(Applied(cs, r), r)
    ensures forall d: Condition :: !BuilderKind(d.kind) ==> (First(Applied(cs, r), d) <==> First(cs, d))
  {
    hide SetAll, First, Says, TypesDistinct;
    var a := Applied(cs, r);
    if r.None? {
      assert TypesDistinct(FETCH_FAILED) by { KindsApart(); FailedDistinct(); }
      FirstWritten(cs, FETCH_FAILED, 0);
      FirstSays(a, FETCH_FAILED[0], false, "", "RayServiceFetchError");
      FirstWritten(cs, FETCH_FAILED, 1);
      FirstSays(a, FETCH_FAILED[1], false, "", "RayUnhealthy");
    } else {
      ReportedDistinct(r.value);
      WrittenFirst(cs, r.value);
    }
    forall d: Condition | !BuilderKind(d.kind)
      ensures First(a, d) <==> First(cs, d)
    {
      SetAllFirst(cs, if r.Some? then Reported(r.value) else FETCH_FAILED, d);
    }
  }

  lemma FailedDistinct()
    ensures TypesDistinct(FETCH_FAILED)
  {
    assert |"RayServiceReady"| == 15 && |"Ready"| == 5;
  }

  lemma FirstWritten(cs: seq<Condition>, new_: seq<Condition>, i: nat)
    requires TypesDistinct(new_) && i < |new_|
    ensures First(SetAll(cs, new_), new_[i])
  {
    hide SetAll, First;
    SetAllFirst(cs, new_, new_[i]);
  }

  lemma WrittenFirst(cs: seq<Condition>, r: Report)
    requires TypesDistinct(Reported(r))
    ensures ConditionsSay(SetAll(cs, Reported(r)), Some(r))
  {
    hide SetAll, First, Says, TypesDistinct, Reported;
    SevenReported(r);
    var new_, s := Reported(r), r.snap;
    WrittenSays(cs, new_, 0, s.serviceReady || s.running, "Ready", "NotReady");
    WrittenSays(cs, new_, 1, s.upgrading, "Upgrading", "Idle");
    WrittenSays(cs, new_, 2, s.endpoints, "Found", "Missing");
    WrittenSays(cs, new_, 3, s.headPodReady && s.desiredWorkers == s.availableWorkers, "AllPodsReady", "PodsNotReady");
    WrittenSays(cs, new_, 4, s.serveBackend, "EndpointsAvailable", "NoEndpoints");
    WrittenSays(cs, new_, 5, r.weaviateReady, "Ready", "NotReady");
    WrittenSays(cs, new_, 6,
                (s.serviceReady || s.running) && s.headPodReady && s.desiredWorkers == s.availableWorkers && s.serveBackend && r.weaviateReady,
                "AllHealthy", "Degraded");
  }

  lemma WrittenSays(cs: seq<Condition>, new_: seq<Condition>, i: nat, ok: bool, yes: string, no: string)
    requires TypesDistinct(new_) && i < |new_| && new_[i].status == Holds(ok) && new_[i].reason == (if ok then yes else no)
    ensures Says(SetAll(cs, new_), new_[i].kind, ok, yes, no)
  {
    hide SetAll, First, Says, TypesDistinct;
    FirstWritten(cs, new_, i);
    FirstSays(SetAll(cs, new_), new_[i], ok, yes, no);
  }

  /** The status the builder compares with: that of the first entry, Unknown without one. */
  lemma {:induction false} StatusIsFirst(cs: seq<Condition>, kind: string)
    ensures (forall c :: First(cs, c) && c.kind == kind ==> StatusOf(cs, kind) == c.status)
    ensures !HasKind(cs, kind) ==> StatusOf(cs, kind) == Unknown
  {
    hide First, HasKind;
    if cs == [] {
      forall c: Condition ensures !First(cs, c) {
        NoneFirst(c);
      }
    } else {
      StatusIsFirst(cs[1..], kind);
      forall c | First(cs, c) && c.kind == kind ensures StatusOf(cs, kind) == c.status {
        FirstStep(cs, c);
      }
      assert HasKind(cs, kind) <==> cs[0].kind == kind || HasKind(cs[1..], kind) by { HasKindStep(cs, kind); }
    }
  }

  lemma HasKindStep(cs: seq<Condition>, kind: string)
    requires cs != []
    ensures HasKind(cs, kind) <==> cs[0].kind == kind || HasKind(cs[1..], kind)
  {
    var rest := cs[1..];
    if i :| 0 <= i < |cs| && cs[i].kind == kind {
      if i > 0 {
        assert rest[i - 1].kind == kind;
      }
    }
    if i :| 0 <= i < |rest| && rest[i].kind == kind {
      assert cs[i + 1].kind == kind;
    }
  }

  /** The event a changed condition is announced with. */
  predicate Announces(e: Event, before: Status, ok: bool, yes: string, no: string) {
    (ok && before != True && e == Event(true, yes)) || (!ok && before == True && e == Event(false, no))
  }

  /** The events of one call: those of the conditions that change, and one warning for a failed collection. */
  lemma EventsAre(cs: seq<Condition>, r: Report, e: Event)
    ensures e in Emitted(cs, Some(r)) <==>
              var s := r.snap;
              || Announces(e, StatusOf(cs, "RayServiceReady"), s.serviceReady || s.running, "RayServiceReady", "RayServiceNotReady")
              || Announces(e, StatusOf(cs, "RayClusterReady"), s.headPodReady && s.desiredWorkers == s.availableWorkers,
                           "RayClusterReady", "RayClusterNotReady")
              || Announces(e, StatusOf(cs, "RayServeRouteReady"), s.serveBackend, "RayServeReady", "RayServeNotReady")
              || Announces(e, StatusOf(cs, "WeaviateDatabaseReady"), r.weaviateReady, "WeaviateReady", "WeaviateNotReady")
              || Announces(e, StatusOf(cs, "Ready"),
                           (s.serviceReady || s.running) && s.headPodReady && s.desiredWorkers == s.availableWorkers && s.serveBackend
                           && r.weaviateReady, "PlatformReady", "PlatformDegraded")
    ensures Emitted(cs, None) == [Event(false, "RayServiceError")]
  {
    hide StatusOf, Emitted;
    EmittedConcats(cs, r);
    hide AnnouncedFor;
    AnnouncedIff(cs, r, 0, e);
    AnnouncedIff(cs, r, 1, e);
    AnnouncedIff(cs, r, 2, e);
    AnnouncedIff(cs, r, 3, e);
    AnnouncedIff(cs, r, 4, e);
  }

  lemma EmittedConcats(cs: seq<Condition>, r: Report)
    ensures Emitted(cs, Some(r)) == AnnouncedFor(cs, r, 0) + AnnouncedFor(cs, r, 1) + AnnouncedFor(cs, r, 2) + AnnouncedFor(cs, r, 3)
                                    + AnnouncedFor(cs, r, 4)
    ensures Emitted(cs, None) == [Event(false, "RayServiceError")]
  {
    hide AnnouncedFor;
  }

  lemma AnnouncedIff(cs: seq<Condition>, r: Report, k: nat, e: Event)
    requires k < |KINDS|
    ensures e in AnnouncedFor(cs, r, k) <==> Announces(e, StatusOf(cs, KINDS[k]), Healthy(r, k), READY_EVENTS[k], NOT_READY_EVENTS[k])
  {
    hide Healthy, StatusOf;
  }

  // ---- the raystatus version ------------------------------------------------------------------------------

  function RaystatusReported(s: Snapshot, serviceText: string, clusterText: string, serveText: string): seq<Condition> {
    var ready := ServiceOk(s) && ClusterOk(s) && s.serveBackend;
    [Condition("RayServiceReady", Holds(ServiceOk(s)), if ServiceOk(s) then "Ready" else "NotReady", serviceText),
     UpgradeCondition(s),
     ClusterCondition(s, clusterText),
     ServeCondition(s, serveText),
     Condition("Ready", Holds(ready), if ready then "AllHealthy" else "Degraded",
               "Composite of RayServiceReady, RayClusterReady and RayServeRouteReady")]
  }

  /** The five entries of the roll-up, by type and status. */
  lemma RaystatusEntries(r: Report, t1: string, t2: string, t3: string)
    ensures var y := RaystatusReported(r.snap, t1, t2, t3);
            && |y| == 5
            && y[0].kind == KINDS[0] && y[1].kind == UPGRADE && y[2].kind == KINDS[1] && y[3].kind == KINDS[2] && y[4].kind == KINDS[4]
            && y[0].status == Holds(Healthy(r, 0)) && y[1].status == Holds(r.snap.upgrading) && y[2].status == Holds(Healthy(r, 1))
            && y[3].status == Holds(Healthy(r, 2)) && y[4].status == Holds(Healthy(r, 0) && Healthy(r, 1) && Healthy(r, 2))
  {
    hide ServiceOk, ClusterOk;
  }

  lemma RaystatusDistinct(r: Report, t1: string, t2: string, t3: string)
    ensures TypesDistinct(RaystatusReported(r.snap, t1, t2, t3))
  {
    RaystatusEntries(r, t1, t2, t3);
    KindsApart();
    hide RaystatusReported, Healthy, Holds;
    assert WRITTEN[0] == KINDS[0] && WRITTEN[1] == UPGRADE && WRITTEN[3] == KINDS[1] && WRITTEN[4] == KINDS[2] && WRITTEN[6] == KINDS[4];
  }

  lemma UpgradeReported(r: Report)
    ensures |Reported(r)| == 7 && Reported(r)[1].kind == UPGRADE && Reported(r)[1].status == Holds(r.snap.upgrading)
    ensures Healthy(r, 4) <==> Healthy(r, 0) && Healthy(r, 1) && Healthy(r, 2) && r.weaviateReady
  {
    hide ServiceOk, ClusterOk;
  }

  /**
   * From any two lists, the two engines agree on their four shared Ray conditions, and the
   * builder is Ready exactly when the other is and the vector database is ready.
   */
  lemma EnginesAgree(cs: seq<Condition>, ds: seq<Condition>, r: Report, t1: string, t2: string, t3: string)
    ensures var a, b := Applied(cs, Some(r)), SetAll(ds, RaystatusReported(r.snap, t1, t2, t3));
            && StatusOf(a, "RayServiceReady") == StatusOf(b, "RayServiceReady")
            && StatusOf(a, UPGRADE) == StatusOf(b, UPGRADE)
            && StatusOf(a, "RayClusterReady") == StatusOf(b, "RayClusterReady")
            && StatusOf(a, "RayServeRouteReady") == StatusOf(b, "RayServeRouteReady")
            && (StatusOf(a, "Ready") == True <==> StatusOf(b, "Ready") == True && r.weaviateReady)
  {
    var x, y := Reported(r), RaystatusReported(r.snap, t1, t2, t3);
    RaystatusEntries(r, t1, t2, t3);
    RaystatusDistinct(r, t1, t2, t3);
    UpgradeReported(r);
    ReportedDistinct(r);
    hide SetAll, StatusOf, TypesDistinct, Reported, RaystatusReported, Healthy;
    StatusAfter(cs, r, 0);
    StatusAfter(cs, r, 1);
    StatusAfter(cs, r, 2);
    StatusAfter(cs, r, 4);
    SetAllSets(cs, x, 1);
    SetAllSets(ds, y, 0);
    SetAllSets(ds, y, 1);
    SetAllSets(ds, y, 2);
    SetAllSets(ds, y, 3);
    SetAllSets(ds, y, 4);
  }

  // ---- events over successive calls on the same list ------------------------------------------------------

  function ListAfter(cs: seq<Condition>, calls: seq<Option<Report>>): seq<Condition>
    decreases |calls|
  {
    if calls == [] then cs else ListAfter(Applied(cs, calls[0]), calls[1..])
  }

  function EventsOver(cs: seq<Condition>, calls: seq<Option<Report>>): seq<Event>
    decreases |calls|
  {
    if calls == [] then [] else Emitted(cs, calls[0]) + EventsOver(Applied(cs, calls[0]), calls[1..])
  }

  /** The ready (true) and not-ready (false) events of one condition, in order. */
  function Trace(es: seq<Event>, k: nat): seq<bool>
    requires k < |KINDS|
  {
    if es == [] then [] else Polarity(es[0], k) + Trace(es[1..], k)
  }

  function Polarity(e: Event, k: nat): seq<bool>
    requires k < |KINDS|
  {
    if e.reason == READY_EVENTS[k] then [true] else if e.reason == NOT_READY_EVENTS[k] then [false] else []
  }

  predicate Alternates(before: bool, trace: seq<bool>)
    decreases |trace|
  {
    trace == [] || (trace[0] != before && Alternates(trace[0], trace[1..]))
  }

  /** A failed collection resets these two conditions without announcing it. */
  predicate Resets(k: nat) {
    k == 0 || k == 4
  }

  /** What the k-th condition is told by each call. */
  function Inputs(calls: seq<Option<Report>>, k: nat): seq<Option<bool>>
    requires k < |KINDS|
  {
    seq(|calls|, i requires 0 <= i < |calls| => if calls[i].Some? then Some(Healthy(calls[i].value, k)) else None)
  }

  /** Whether the condition is True before the i-th call. */
  function TrueBefore(st: bool, h: seq<Option<bool>>, resets: bool, i: nat): bool
    requires i <= |h|
  {
    if i == 0 then st
    else match h[i - 1]
      case Some(ok) => ok
      case None => !resets && TrueBefore(st, h, resets, i - 1)
  }

  function Machine(st: bool, h: seq<Option<bool>>, resets: bool): seq<bool>
    decreases |h|
  {
    if h == [] then []
    else match h[0]
      case Some(ok) => (if ok != st then [ok] else []) + Machine(ok, h[1..], resets)
      case None => Machine(!resets && st, h[1..], resets)
  }

  lemma {:induction false} TraceConcat(a: seq<Event>, b: seq<Event>, k: nat)
    requires k < |KINDS|
    ensures Trace(a + b, k) == Trace(a, k) + Trace(b, k)
  {
    hide Polarity;
    if a == [] {
      assert a + b == b;
    } else {
      assert (a + b)[1..] == a[1..] + b;
      TraceConcat(a[1..], b, k);
    }
  }

  /** No event of one condition is taken for one of another. */
  lemma EventsApart(j: nat, k: nat)
    requires j < |KINDS| && k < |KINDS| && j != k
    ensures READY_EVENTS[j] != READY_EVENTS[k] && READY_EVENTS[j] != NOT_READY_EVENTS[k] && NOT_READY_EVENTS[j] != NOT_READY_EVENTS[k]
    ensures READY_EVENTS[k] != NOT_READY_EVENTS[k] && READY_EVENTS[k] != NOT_READY_EVENTS[j]
  {
    assert |READY_EVENTS[0]| == 15 && |READY_EVENTS[1]| == 15 && |READY_EVENTS[2]| == 13 && |READY_EVENTS[3]| == 13 && |READY_EVENTS[4]| == 13;
    assert |NOT_READY_EVENTS[0]| == 18 && |NOT_READY_EVENTS[1]| == 18 && |NOT_READY_EVENTS[2]| == 16 && |NOT_READY_EVENTS[3]| == 16
        && |NOT_READY_EVENTS[4]| == 16;
    assert READY_EVENTS[0][3] == 'S' && READY_EVENTS[1][3] == 'C' && READY_EVENTS[2][0] == 'R' && READY_EVENTS[3][0] == 'W' && READY_EVENTS[4][0] == 'P';
    assert NOT_READY_EVENTS[0][3] == 'S' && NOT_READY_EVENTS[1][3] == 'C' && NOT_READY_EVENTS[2][0] == 'R' && NOT_READY_EVENTS[3][0] == 'W'
        && NOT_READY_EVENTS[4][0] == 'P';
  }

  lemma TraceOfAnnounced(cs: seq<Condition>, r: Report, j: nat, k: nat)
    requires j < |KINDS| && k < |KINDS|
    ensures var st := StatusOf(cs, KINDS[k]) == True;
            Trace(AnnouncedFor(cs, r, j), k) == if j == k && Healthy(r, k) != st then [Healthy(r, k)] else []
  {
    hide Healthy, StatusOf;
    var es := AnnouncedFor(cs, r, j);
    if j != k {
      EventsApart(j, k);
    } else {
      EventsApart((k + 1) % 5, k);
    }
    if es != [] {
      assert es[1..] == [];
    }
  }

  /** The part of Emitted that comes from the first j announced conditions. */
  function EmittedUpTo(cs: seq<Condition>, r: Report, j: nat): seq<Event>
    requires j <= |KINDS|
  {
    if j == 0 then [] else EmittedUpTo(cs, r, j - 1) + AnnouncedFor(cs, r, j - 1)
  }

  lemma {:induction false} TraceUpTo(cs: seq<Condition>, r: Report, j: nat, k: nat)
    requires j <= |KINDS| && k < |KINDS|
    ensures var st := StatusOf(cs, KINDS[k]) == True;
            Trace(EmittedUpTo(cs, r, j), k) == if k < j && Healthy(r, k) != st then [Healthy(r, k)] else []
  {
    if j > 0 {
      hide AnnouncedFor, Healthy, StatusOf, Trace;
      TraceUpTo(cs, r, j - 1, k);
      TraceConcat(EmittedUpTo(cs, r, j - 1), AnnouncedFor(cs, r, j - 1), k);
      TraceOfAnnounced(cs, r, j - 1, k);
    }
  }

  lemma EmittedIsAll(cs: seq<Condition>, r: Report)
    ensures Emitted(cs, Some(r)) == EmittedUpTo(cs, r, 5)
  {
    hide AnnouncedFor;
    assert EmittedUpTo(cs, r, 1) == AnnouncedFor(cs, r, 0);
    assert EmittedUpTo(cs, r, 2) == EmittedUpTo(cs, r, 1) + AnnouncedFor(cs, r, 1);
    assert EmittedUpTo(cs, r, 3) == EmittedUpTo(cs, r, 2) + AnnouncedFor(cs, r, 2);
    assert EmittedUpTo(cs, r, 4) == EmittedUpTo(cs, r, 3) + AnnouncedFor(cs, r, 3);
  }

  lemma TraceOfCall(cs: seq<Condition>, r: Option<Report>, k: nat)
    requires k < |KINDS|
    ensures var st := StatusOf(cs, KINDS[k]) == True;
            Trace(Emitted(cs, r), k) == if r.Some? && Healthy(r.value, k) != st then [Healthy(r.value, k)] else []
  {
    if r.Some? {
      hide Trace, Healthy, StatusOf, Emitted, EmittedUpTo;
      EmittedIsAll(cs, r.value);
      TraceUpTo(cs, r.value, 5, k);
    } else {
      FetchErrorApart(k);
      assert Emitted(cs, r)[1..] == [];
    }
  }

  lemma FetchErrorApart(k: nat)
    requires k < |KINDS|
    ensures "RayServiceError" != READY_EVENTS[k] && "RayServiceError" != NOT_READY_EVENTS[k]
  {
    assert |"RayServiceError"| == 15 && "RayServiceError"[3] == 'S' && "RayServiceError"[10] == 'E' && READY_EVENTS[0][10] == 'R';
    EventsApart(0, 1);
    assert |READY_EVENTS[2]| == 13 && |READY_EVENTS[3]| == 13 && |READY_EVENTS[4]| == 13 && READY_EVENTS[1][3] == 'C';
    assert |NOT_READY_EVENTS[0]| == 18 && |NOT_READY_EVENTS[1]| == 18 && |NOT_READY_EVENTS[2]| == 16 && |NOT_READY_EVENTS[3]| == 16
        && |NOT_READY_EVENTS[4]| == 16;
  }

  lemma StatusAfterCall(cs: seq<Condition>, r: Option<Report>, k: nat)
    requires k < |KINDS|
    ensures StatusOf(Applied(cs, r), KINDS[k]) == True <==>
              if r.Some? then Healthy(r.value, k) else !Resets(k) && StatusOf(cs, KINDS[k]) == True
  {
    if r.Some? {
      StatusAfter(cs, r.value, k);
    } else {
      KindsApart();
      hide SetAll, StatusOf;
      if k == 0 {
        SetAllSets(cs, FETCH_FAILED, 0);
      } else if k == 4 {
        SetAllSets(cs, FETCH_FAILED, 1);
      } else {
        SetAllStatus(cs, FETCH_FAILED, KINDS[k]);
      }
    }
  }

  lemma MachineStep(st: bool, h: seq<Option<bool>>, resets: bool)
    requires h != []
    ensures Machine(st, h, resets) ==
              (if h[0].Some? && h[0].value != st then [h[0].value] else [])
              + Machine(if h[0].Some? then h[0].value else !resets && st, h[1..], resets)
  {
  }

  lemma InputsStep(calls: seq<Option<Report>>, k: nat)
    requires calls != [] && k < |KINDS|
    ensures Inputs(calls, k) != [] && Inputs(calls, k)[1..] == Inputs(calls[1..], k)
    ensures Inputs(calls, k)[0] == if calls[0].Some? then Some(Healthy(calls[0].value, k)) else None
  {
    hide Healthy;
  }

  lemma {:induction false} TraceIsMachine(cs: seq<Condition>, calls: seq<Option<Report>>, k: nat)
    requires k < |KINDS|
    ensures Trace(EventsOver(cs, calls), k) == Machine(StatusOf(cs, KINDS[k]) == True, Inputs(calls, k), Resets(k))
    decreases |calls|
  {
    hide Applied, Emitted, Healthy, StatusOf, Resets;
    if calls == [] {
      assert Inputs(calls, k) == [];
    } else {
      var first, rest := Emitted(cs, calls[0]), EventsOver(Applied(cs, calls[0]), calls[1..]);
      assert EventsOver(cs, calls) == first + rest;
      hide Trace, EventsOver, Machine, Inputs;
      TraceConcat(first, rest, k);
      TraceOfCall(cs, calls[0], k);
      StatusAfterCall(cs, calls[0], k);
      TraceIsMachine(Applied(cs, calls[0]), calls[1..], k);
      InputsStep(calls, k);
      MachineStep(StatusOf(cs, KINDS[k]) == True, Inputs(calls, k), Resets(k));
    }
  }

  /** A condition that was True went silently False and was announced ready again later. */
  predicate SilentReset(st: bool, h: seq<Option<bool>>, resets: bool) {
    exists i, j :: 0 <= i < j < |h| && resets && h[i].None? && TrueBefore(st, h, resets, i) && h[j] == Some(true)
  }

  lemma TrueBeforeShifts(st: bool, h: seq<Option<bool>>, resets: bool, i: nat)
    requires h != [] && i < |h|
    ensures TrueBefore(st, h, resets, i + 1) == TrueBefore(TrueBefore(st, h, resets, 1), h[1..], resets, i)
  {
    if i > 0 {
      TrueBeforeShifts(st, h, resets, i - 1);
    }
  }

  lemma {:induction false} AfterSilentReset(h: seq<Option<bool>>)
    ensures Alternates(true, Machine(false, h, true)) <==> forall j :: 0 <= j < |h| ==> h[j] != Some(true)
    ensures (forall j :: 0 <= j < |h| ==> h[j] != Some(true)) ==> Machine(false, h, true) == []
  {
    if h != [] {
      if h[0] == Some(true) {
        assert Machine(false, h, true)[0] == true;
      } else {
        AfterSilentReset(h[1..]);
        assert Machine(false, h, true) == Machine(false, h[1..], true);
        assert forall j :: 0 <= j < |h[1..]| ==> h[1..][j] == h[j + 1];
        assert forall j :: 1 <= j < |h| ==> h[j] == h[1..][j - 1];
      }
    }
  }

  lemma {:induction false} MachineAlternatesIff(st: bool, h: seq<Option<bool>>, resets: bool)
    ensures Alternates(st, Machine(st, h, resets)) <==> !SilentReset(st, h, resets)
    decreases |h|
  {
    if h != [] {
      var rest := h[1..];
      var st1 := TrueBefore(st, h, resets, 1);
      assert forall j :: 0 <= j < |rest| ==> rest[j] == h[j + 1];
      if h[0].None? && resets && st {
        AfterSilentReset(rest);
        if j :| 0 <= j < |rest| && rest[j] == Some(true) {
          assert TrueBefore(st, h, resets, 0) && h[j + 1] == Some(true);
        } else {
          assert forall j :: 0 < j < |h| ==> h[j] == rest[j - 1];
        }
      } else {
        MachineAlternatesIff(st1, rest, resets);
        ResetShifts(st, h, resets);
        var m := Machine(st1, rest, resets);
        if h[0].Some? && h[0].value != st {
          assert Machine(st, h, resets) == [h[0].value] + m;
          PrependAlternates(st, h[0].value, m);
        } else {
          assert Machine(st, h, resets) == m && st1 == st;
        }
      }
    }
  }

  lemma PrependAlternates(before: bool, first: bool, trace: seq<bool>)
    requires first != before
    ensures Alternates(before, [first] + trace) <==> Alternates(first, trace)
  {
    assert ([first] + trace)[1..] == trace;
  }

  lemma ResetShifts(st: bool, h: seq<Option<bool>>, resets: bool)
    requires h != [] && !(h[0].None? && resets && st)
    ensures SilentReset(st, h, resets) <==> SilentReset(TrueBefore(st, h, resets, 1), h[1..], resets)
  {
    var rest, st1 := h[1..], TrueBefore(st, h, resets, 1);
    if i, j :| 0 <= i < j < |h| && resets && h[i].None? && TrueBefore(st, h, resets, i) && h[j] == Some(true) {
      TrueBeforeShifts(st, h, resets, i - 1);
      assert rest[i - 1].None? && rest[j - 1] == Some(true) && TrueBefore(st1, rest, resets, i - 1);
    }
    if i, j :| 0 <= i < j < |rest| && resets && rest[i].None? && TrueBefore(st1, rest, resets, i) && rest[j] == Some(true) {
      TrueBeforeShifts(st, h, resets, i);
      assert h[i + 1].None? && h[j + 1] == Some(true) && TrueBefore(st, h, resets, i + 1);
    }
  }

  /**
   * Over successive calls on one list the ready and not-ready events of a condition alternate,
   * starting opposite to its first status, if and only if no failed collection silently reset it
   * from True before a later call announced it ready. For the three conditions a failed
   * collection does not touch, they always alternate.
   */
  lemma EventsAlternateIff(cs: seq<Condition>, calls: seq<Option<Report>>, k: nat)
    requires k < |KINDS|
    ensures var st := StatusOf(cs, KINDS[k]) == True;
            && (Alternates(st, Trace(EventsOver(cs, calls), k)) <==> !SilentReset(st, Inputs(calls, k), Resets(k)))
            && (!Resets(k) || (forall i :: 0 <= i < |calls| ==> calls[i].Some?) ==> Alternates(st, Trace(EventsOver(cs, calls), k)))
  {
    hide Trace, EventsOver, Machine, Alternates, StatusOf;
    TraceIsMachine(cs, calls, k);
    MachineAlternatesIff(StatusOf(cs, KINDS[k]) == True, Inputs(calls, k), Resets(k));
  }
}
