/**
 * The events of the Ray conditions across reconciles. Each reconcile makes one call, on the list
 * that the deferred write of an earlier one stored; that list names stages, and three of the
 * stages share their name with an announced condition while two conditions have no namesake.
 */
module Announcements {
  import opened Api
  import opened Features
  import opened StageRunner
  import opened RayConditions
  import opened Protocol
  import opened Safety
  import opened Immutability
  import opened Hopeless
  import P = PlatformRun

  /** The stage that collects the snapshot. */
  const CALL_AT := 6

  // ---- what a published list says under the announced names ---------------------------------------------

  /** What the list of that run shows as True under the name of the k-th condition. */
  predicate Shows(r: P.Run, k: nat) {
    match k
    case 0 => PassedStage(r, 3)
    case 3 => PassedStage(r, 4)
    case 4 => r.outcome.Ok? && r.next == |P.STAGES|
    case _ => false
  }

  predicate PassedStage(r: P.Run, i: nat) {
    r.next > i && (r.outcome.Ok? || r.next > i + 1)
  }

  lemma {:induction false} StatusIsTrueIff(cs: seq<Condition>, kind: string)
    requires TypesDistinct(cs)
    ensures StatusOf(cs, kind) == True <==> IsConditionTrue(cs, kind)
  {
    if cs != [] {
      var rest := cs[1..];
      assert forall i :: 0 <= i < |rest| ==> rest[i] == cs[i + 1];
      StatusIsTrueIff(rest, kind);
      if cs[0].kind == kind {
        assert IsConditionTrue(cs, kind) <==> cs[0].status == True;
      } else {
        if i :| 0 <= i < |cs| && cs[i].kind == kind && cs[i].status == True {
          assert rest[i - 1].kind == kind && rest[i - 1].status == True;
        }
        if i :| 0 <= i < |rest| && rest[i].kind == kind && rest[i].status == True {
          assert cs[i + 1].kind == kind;
        }
      }
    }
  }

  /** A published list names stages, and Ready after the last. */
  lemma PublishedKinds(labels: seq<string>, conditions: seq<Condition>, next: nat, o: Outcome, kind: string)
    requires Published(labels, conditions, next, o) && kind !in labels && kind != "Ready"
    ensures !IsConditionTrue(conditions, kind)
  {
  }

  lemma LabelsAndKinds()
    ensures P.LABELS[3] == KINDS[0] && P.LABELS[4] == KINDS[3] && KINDS[4] == "Ready"
    ensures KINDS[1] !in P.LABELS && KINDS[2] !in P.LABELS && KINDS[1] != "Ready" && KINDS[2] != "Ready"
  {
    assert |KINDS[1]| == 15 && |KINDS[2]| == 18;
    assert |P.LABELS[0]| == 13 && |P.LABELS[1]| == 13 && |P.LABELS[2]| == 22 && |P.LABELS[3]| == 15 && |P.LABELS[4]| == 21 && |P.LABELS[5]| == 12;
    assert |P.LABELS[6]| == 21 && |P.LABELS[7]| == 27 && |P.LABELS[8]| == 18 && |P.LABELS[9]| == 14 && |P.LABELS[10]| == 20;
    assert KINDS[1][3] == 'C' && P.LABELS[3][3] == 'S' && KINDS[2][0] == 'R' && P.LABELS[8][0] == 'I';
  }

  lemma PublishedShows(r: P.Run, k: nat)
    requires P.WellFormed(r) && k < |KINDS|
    ensures StatusOf(r.conditions, KINDS[k]) == True <==> Shows(r, k)
  {
    P.LabelsDistinct();
    LabelsAndKinds();
    assert Published(P.LABELS, r.conditions, r.next, r.outcome) && r.next <= |P.STAGES|;
    ReadPublished(P.LABELS, r.conditions, r.next, r.outcome);
    hide Published, IsConditionTrue, StatusOf, TypesDistinct, Distinct;
    StatusIsTrueIff(r.conditions, KINDS[k]);
    if k == 0 {
      ListedIff(r, 3);
    } else if k == 3 {
      ListedIff(r, 4);
    } else if k == 1 || k == 2 {
      PublishedKinds(P.LABELS, r.conditions, r.next, r.outcome, KINDS[k]);
    }
  }

  lemma ListedIff(r: P.Run, i: nat)
    requires P.WellFormed(r) && i < |P.LABELS|
    ensures IsConditionTrue(r.conditions, P.LABELS[i]) <==> PassedStage(r, i)
  {
    P.LabelsDistinct();
    ReadPublished(P.LABELS, r.conditions, r.next, r.outcome);
    hide Published, IsConditionTrue, TypesDistinct;
  }

  // ---- the machine: which list a run reads ---------------------------------------------------------------

  /** Nothing, or the list of some run of the stage loop. */
  ghost predicate StageList(cs: seq<Condition>) {
    cs == [] || exists r: P.Run :: P.WellFormed(r) && r.conditions == cs
  }

  ghost predicate ListsFromStages(st: State) {
    && (forall n :: n in st.store.platforms ==> StageList(st.store.platforms[n].status.conditions))
    && (st.platformRun.Some? ==> StageList(st.platformRun.value.p.status.conditions))
  }

  /** The stages before the call leave what the copy says about its conditions alone. */
  lemma StageKeepsConditions(s: Store, r: P.Run, w: P.World)
    requires !P.Stopped(r)
    ensures P.StageStep(s, r, w).1.p.status.conditions == r.p.status.conditions
  {
    hide ReconcileFeatures, CheckChildren, P.ReconcileWeaviate, P.Listing;
  }

  lemma StepKeepsConditions(st: State, step: Step)
    requires Next(st, step).platformRun.Some?
    ensures var q := Next(st, step).platformRun.value;
            if st.platformRun.Some? then q.p.status.conditions == st.platformRun.value.p.status.conditions
            else q.name in st.store.platforms && q.p == st.store.platforms[q.name]
  {
    RunPlans(st, step);
    if st.platformRun.Some? {
      if step.PlatformStage? && !P.Stopped(st.platformRun.value) {
        StageKeepsConditions(st.store, st.platformRun.value, step.pw);
        StageRuns(st, step.pw);
      } else {
        RunUntouched(st, step);
      }
    }
  }

  lemma ListsNext(st: State, step: Step)
    requires Inv(st) && ListsFromStages(st)
    ensures ListsFromStages(Next(st, step))
  {
    hide Inv, Next, StageList;
    var u := Next(st, step);
    assert StageList([]) by { EmptyIsStageList(); }
    forall n | n in u.store.platforms ensures StageList(u.store.platforms[n].status.conditions) {
      StepStatuses(st, step, n);
      if step.PlatformPublish? && st.platformRun.Some? {
        RunWellFormed(st);
        RunListIsStageList(st.platformRun.value);
      }
    }
    if u.platformRun.Some? {
      StepKeepsConditions(st, step);
    }
  }

  lemma EmptyIsStageList()
    ensures StageList([])
  {
  }

  lemma RunListIsStageList(r: P.Run)
    requires P.WellFormed(r)
    ensures StageList(r.conditions)
  {
    hide P.WellFormed;
  }

  /** In every reachable state, stored lists and the list a run read are lists of the stage loop. */
  lemma {:induction false} ListsOverRuns(ns: string, quantities: iset<string>, steps: seq<Step>)
    ensures ListsFromStages(Exec(Empty(ns, quantities), steps))
    decreases |steps|
  {
    if steps != [] {
      hide Next, Inv, ListsFromStages;
      var front := steps[..|steps| - 1];
      ListsOverRuns(ns, quantities, front);
      Invariant(ns, quantities, front);
      ListsNext(Exec(Empty(ns, quantities), front), steps[|steps| - 1]);
    }
  }

  /** What the builder reads differs from what was fetched at most in the Ingress stage's own condition. */
  predicate Reads(seen: seq<Condition>, fetched: seq<Condition>) {
    forall k :: 0 <= k < |KINDS| ==> StatusOf(seen, KINDS[k]) == StatusOf(fetched, KINDS[k])
  }

  /**
   * Over every run of the machine: a reconcile that collects a snapshot announces the two conditions
   * without a namesake among the stages as ready whenever they are, however often it already did,
   * and never as not ready; the other three it announces against what an earlier run's list says
   * about the stage of that name, or against nothing.
   */
  lemma AnnouncedInRun(ns: string, quantities: iset<string>, steps: seq<Step>, seen: seq<Condition>, rep: Report, k: nat)
    requires var st := Exec(Empty(ns, quantities), steps);
             st.platformRun.Some? && Reads(seen, st.platformRun.value.p.status.conditions)
    requires k < |KINDS|
    ensures k == 1 || k == 2 ==> AnnouncedFor(seen, rep, k) == if Healthy(rep, k) then [Event(true, READY_EVENTS[k])] else []
    ensures var cs := Exec(Empty(ns, quantities), steps).platformRun.value.p.status.conditions;
            || (cs == [] && AnnouncedFor(seen, rep, k) == if Healthy(rep, k) then [Event(true, READY_EVENTS[k])] else [])
            || exists r: P.Run :: P.WellFormed(r) && r.conditions == cs && AnnouncedFor(seen, rep, k) == (
                 if Healthy(rep, k) && !Shows(r, k) then [Event(true, READY_EVENTS[k])]
                 else if !Healthy(rep, k) && Shows(r, k) then [Event(false, NOT_READY_EVENTS[k])] else [])
  {
    hide Exec, Healthy, P.WellFormed, Shows;
    ListsOverRuns(ns, quantities, steps);
    var cs := Exec(Empty(ns, quantities), steps).platformRun.value.p.status.conditions;
    assert StatusOf(seen, KINDS[k]) == StatusOf(cs, KINDS[k]);
    if cs != [] {
      var r: P.Run :| P.WellFormed(r) && r.conditions == cs;
      PublishedShows(r, k);
      NothingShown(r, k);
    }
  }

  lemma NothingShown(r: P.Run, k: nat)
    ensures k == 1 || k == 2 ==> !Shows(r, k)
  {
  }

  // ---- sequences of reconciles ---------------------------------------------------------------------------

  /** A finished run, the list its call read, what the call collected, and whether its deferred write landed. */
  datatype Reconcile = Reconcile(run: P.Run, seen: seq<Condition>, report: Option<Report>, lands: bool)

  predicate Calls(rc: Reconcile) {
    rc.run.next > CALL_AT
  }

  /** The list stored after a reconcile. */
  function After(cs: seq<Condition>, rc: Reconcile): seq<Condition> {
    if rc.lands then rc.run.conditions else cs
  }

  /** Successive reconciles of one platform, from a stored list. */
  predicate Successive(cs: seq<Condition>, rs: seq<Reconcile>)
    decreases |rs|
  {
    rs == [] || (P.WellFormed(rs[0].run) && Reads(rs[0].seen, cs) && Successive(After(cs, rs[0]), rs[1..]))
  }

  function EventsAcross(rs: seq<Reconcile>): seq<Event> {
    if rs == [] then []
    else (if Calls(rs[0]) then Emitted(rs[0].seen, rs[0].report) else []) + EventsAcross(rs[1..])
  }

  /** Whether the list before the i-th reconcile shows the k-th condition as True: the last list that landed decides. */
  predicate ShownBefore(st: bool, rs: seq<Reconcile>, k: nat, i: nat)
    requires i <= |rs|
  {
    if i == 0 then st
    else if rs[i - 1].lands then Shows(rs[i - 1].run, k) else ShownBefore(st, rs, k, i - 1)
  }

  /** What the i-th reconcile announces about the k-th condition, if anything. */
  function Mark(st: bool, rs: seq<Reconcile>, k: nat, i: nat): Option<bool>
    requires i < |rs| && k < |KINDS|
  {
    if !Calls(rs[i]) || rs[i].report.None? then None
    else
      var ok := Healthy(rs[i].report.value, k);
      if ok != ShownBefore(st, rs, k, i) then Some(ok) else None
  }

  function Marks(st: bool, rs: seq<Reconcile>, k: nat): seq<Option<bool>>
    requires k < |KINDS|
  {
    seq(|rs|, i requires 0 <= i < |rs| => Mark(st, rs, k, i))
  }

  function Compact(ms: seq<Option<bool>>): seq<bool> {
    if ms == [] then []
    else (if ms[0].Some? then [ms[0].value] else []) + Compact(ms[1..])
  }

  lemma {:induction false} ShownShifts(st: bool, rs: seq<Reconcile>, k: nat, i: nat)
    requires rs != [] && i < |rs|
    ensures ShownBefore(st, rs, k, i + 1) == ShownBefore(ShownBefore(st, rs, k, 1), rs[1..], k, i)
  {
    hide Shows;
    if i > 0 {
      ShownShifts(st, rs, k, i - 1);
    }
  }

  lemma MarksStep(st: bool, rs: seq<Reconcile>, k: nat)
    requires rs != [] && k < |KINDS|
    ensures Marks(st, rs, k) == [Mark(st, rs, k, 0)] + Marks(ShownBefore(st, rs, k, 1), rs[1..], k)
  {
    hide Shows, ShownBefore, Healthy;
    var a, b := Marks(st, rs, k), [Mark(st, rs, k, 0)] + Marks(ShownBefore(st, rs, k, 1), rs[1..], k);
    forall i | 0 < i < |rs| ensures a[i] == b[i] {
      ShownShifts(st, rs, k, i - 1);
    }
  }

  /** The events of one condition are exactly the marks, in order. */
  lemma {:induction false} TraceAcross(cs: seq<Condition>, rs: seq<Reconcile>, k: nat)
    requires Successive(cs, rs) && k < |KINDS|
    ensures Trace(EventsAcross(rs), k) == Compact(Marks(StatusOf(cs, KINDS[k]) == True, rs, k))
    decreases |rs|
  {
    if rs != [] {
      var rc, st := rs[0], StatusOf(cs, KINDS[k]) == True;
      var first := if Calls(rc) then Emitted(rc.seen, rc.report) else [];
      assert EventsAcross(rs) == first + EventsAcross(rs[1..]);
      assert StatusOf(rc.seen, KINDS[k]) == StatusOf(cs, KINDS[k]);
      PublishedShows(rc.run, k);
      assert ShownBefore(st, rs, k, 1) == (StatusOf(After(cs, rc), KINDS[k]) == True);
      TraceAcross(After(cs, rc), rs[1..], k);
      hide Emitted, EventsAcross, Healthy, StatusOf, Shows, Successive, P.WellFormed;
      TraceConcat(first, EventsAcross(rs[1..]), k);
      TraceOfCall(rc.seen, rc.report, k);
      MarksStep(st, rs, k);
      assert ([Mark(st, rs, k, 0)] + Marks(ShownBefore(st, rs, k, 1), rs[1..], k))[1..] == Marks(ShownBefore(st, rs, k, 1), rs[1..], k);
    }
  }

  // ---- when they alternate ------------------------------------------------------------------------------------

  /** The last announcement before the i-th reconcile, or else the status the sequence began with. */
  predicate LastMark(st: bool, ms: seq<Option<bool>>, i: nat)
    requires i <= |ms|
  {
    if i == 0 then st
    else if ms[i - 1].Some? then ms[i - 1].value else LastMark(st, ms, i - 1)
  }

  /** An announcement repeats the one before it. */
  predicate Repeats(st: bool, ms: seq<Option<bool>>) {
    exists i :: 0 <= i < |ms| && ms[i].Some? && ms[i].value == LastMark(st, ms, i)
  }

  lemma {:induction false} LastMarkShifts(st: bool, ms: seq<Option<bool>>, i: nat)
    requires ms != [] && i < |ms|
    ensures LastMark(st, ms, i + 1) == LastMark(LastMark(st, ms, 1), ms[1..], i)
  {
    if i > 0 {
      LastMarkShifts(st, ms, i - 1);
    }
  }

  lemma RepeatsStep(st: bool, ms: seq<Option<bool>>)
    requires ms != []
    ensures Repeats(st, ms) <==> (ms[0].Some? && ms[0].value == st) || Repeats(LastMark(st, ms, 1), ms[1..])
  {
    var rest, st1 := ms[1..], LastMark(st, ms, 1);
    if i :| 0 <= i < |ms| && ms[i].Some? && ms[i].value == LastMark(st, ms, i) {
      if i > 0 {
        LastMarkShifts(st, ms, i - 1);
        assert rest[i - 1].Some? && rest[i - 1].value == LastMark(st1, rest, i - 1);
      }
    }
    if i :| 0 <= i < |rest| && rest[i].Some? && rest[i].value == LastMark(st1, rest, i) {
      LastMarkShifts(st, ms, i);
      assert ms[i + 1].Some? && ms[i + 1].value == LastMark(st, ms, i + 1);
    }
    if ms[0].Some? && ms[0].value == st {
      assert ms[0].value == LastMark(st, ms, 0);
    }
  }

  lemma {:induction false} CompactAlternatesIff(st: bool, ms: seq<Option<bool>>)
    ensures Alternates(st, Compact(ms)) <==> !Repeats(st, ms)
    decreases |ms|
  {
    if ms != [] {
      RepeatsStep(st, ms);
      CompactAlternatesIff(LastMark(st, ms, 1), ms[1..]);
      if ms[0].Some? {
        var rest := Compact(ms[1..]);
        assert Compact(ms) == [ms[0].value] + rest;
        assert ([ms[0].value] + rest)[1..] == rest;
      } else {
        assert Compact(ms) == Compact(ms[1..]);
      }
    }
  }

  /**
   * Across reconciles, for any finished runs, snapshots and lost writes: the events of a condition
   * alternate exactly when no reconcile announces what the last announcement already said, where a
   * reconcile announces what its snapshot says when the last list that landed says otherwise.
   */
  lemma AcrossAlternatesIff(cs: seq<Condition>, rs: seq<Reconcile>, k: nat)
    requires Successive(cs, rs) && k < |KINDS|
    ensures var st := StatusOf(cs, KINDS[k]) == True;
            Alternates(st, Trace(EventsAcross(rs), k)) <==> !Repeats(st, Marks(st, rs, k))
  {
    hide StatusOf, Marks, Successive, EventsAcross;
    TraceAcross(cs, rs, k);
    CompactAlternatesIff(StatusOf(cs, KINDS[k]) == True, Marks(StatusOf(cs, KINDS[k]) == True, rs, k));
  }

  // ---- one direction only -----------------------------------------------------------------------------------------

  /** The reconciles that collect a snapshot in which the k-th condition is as ok says. */
  function CallsWith(rs: seq<Reconcile>, k: nat, ok: bool): nat
    requires k < |KINDS|
  {
    if rs == [] then 0
    else (if Calls(rs[0]) && rs[0].report.Some? && Healthy(rs[0].report.value, k) == ok then 1 else 0) + CallsWith(rs[1..], k, ok)
  }

  function Same(n: nat, b: bool): seq<bool> {
    seq(n, _ => b)
  }

  /** If the list before every reconcile says the same, only the opposite is ever announced, every time. */
  lemma {:induction false} OneWay(st: bool, rs: seq<Reconcile>, k: nat)
    requires k < |KINDS| && forall i :: 0 <= i < |rs| ==> ShownBefore(st, rs, k, i) == st
    ensures Compact(Marks(st, rs, k)) == Same(CallsWith(rs, k, !st), !st)
  {
    if rs != [] {
      hide Shows, Healthy;
      var rest, st1 := rs[1..], ShownBefore(st, rs, k, 1);
      MarksStep(st, rs, k);
      assert ShownBefore(st, rs, k, 0) == st;
      if rest == [] {
        assert Marks(st1, rest, k) == [];
        assert Marks(st, rs, k)[1..] == [];
      } else {
        assert st1 == st;
        forall i | 0 <= i < |rest| ensures ShownBefore(st, rest, k, i) == st {
          ShownShifts(st, rs, k, i);
        }
        OneWay(st, rest, k);
        assert ([Mark(st, rs, k, 0)] + Marks(st, rest, k))[1..] == Marks(st, rest, k);
      }
    }
  }

  lemma {:induction false} SameAlternatesIff(st: bool, n: nat)
    ensures Alternates(st, Same(n, !st)) <==> n <= 1
  {
    if n > 1 {
      assert Same(n, !st)[1..][0] == !st;
    } else if n == 1 {
      assert Same(n, !st)[1..] == [];
    }
  }

  lemma {:induction false} NeverShown(rs: seq<Reconcile>, k: nat, i: nat)
    requires (k == 1 || k == 2) && i <= |rs|
    ensures !ShownBefore(false, rs, k, i)
  {
    if i > 0 {
      NeverShown(rs, k, i - 1);
    }
  }

  /**
   * The two conditions without a namesake: from any list of the stage loop, every reconcile that
   * finds them ready announces it, none ever announces the opposite, and the events alternate only
   * if that happens at most once.
   */
  lemma NamelessRepeat(cs: seq<Condition>, rs: seq<Reconcile>, k: nat)
    requires StageList(cs) && Successive(cs, rs) && (k == 1 || k == 2)
    ensures Trace(EventsAcross(rs), k) == Same(CallsWith(rs, k, true), true)
    ensures Alternates(false, Trace(EventsAcross(rs), k)) <==> CallsWith(rs, k, true) <= 1
  {
    hide Successive, EventsAcross, Marks, Healthy, P.WellFormed, Shows;
    if cs != [] {
      var r: P.Run :| P.WellFormed(r) && r.conditions == cs;
      PublishedShows(r, k);
      NothingShown(r, k);
    }
    TraceAcross(cs, rs, k);
    forall i | 0 <= i < |rs| ensures !ShownBefore(false, rs, k, i) {
      NeverShown(rs, k, i);
    }
    OneWay(false, rs, k);
    SameAlternatesIff(false, CallsWith(rs, k, true));
  }

  lemma {:induction false} AlwaysShown(rs: seq<Reconcile>, k: nat, i: nat)
    requires k < |KINDS| && i <= |rs| && forall j :: 0 <= j < |rs| && rs[j].lands ==> Shows(rs[j].run, k)
    ensures ShownBefore(true, rs, k, i)
  {
    hide Shows;
    if i > 0 {
      AlwaysShown(rs, k, i - 1);
    }
  }

  /**
   * The three others, as long as every list that lands shows the stage of that name as passed, in
   * particular while the platform stays Ready: they are never announced ready, and every reconcile
   * that finds one of them not ready announces it again.
   */
  lemma SteadyRepeat(cs: seq<Condition>, rs: seq<Reconcile>, k: nat)
    requires Successive(cs, rs) && k < |KINDS| && StatusOf(cs, KINDS[k]) == True
    requires forall j :: 0 <= j < |rs| && rs[j].lands ==> Shows(rs[j].run, k)
    ensures Trace(EventsAcross(rs), k) == Same(CallsWith(rs, k, false), false)
    ensures Alternates(true, Trace(EventsAcross(rs), k)) <==> CallsWith(rs, k, false) <= 1
  {
    hide Successive, EventsAcross, Marks, Healthy, StatusOf, Shows;
    TraceAcross(cs, rs, k);
    forall i | 0 <= i < |rs| ensures ShownBefore(true, rs, k, i) {
      AlwaysShown(rs, k, i);
    }
    OneWay(true, rs, k);
    SameAlternatesIff(true, CallsWith(rs, k, false));
  }
}
