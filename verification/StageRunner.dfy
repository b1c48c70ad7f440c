/**
 * The stage loop both reconcilers share in shape: run stages in order, append one condition per
 * stage, stop at the first failure, append Ready after the last success. A deferred write
 * publishes whatever the list then holds, also when a stage panics before its append.
 */
module StageRunner {
  import opened Api

  const READY := Condition("Ready", True, "AllReconciled", "all stages completed successfully")

  function PassedOne(kind: string): Condition {
    Condition(kind, True, "Reconciled", "stage succeeded")
  }

  function FailedOne(kind: string, message: string): Condition {
    Condition(kind, False, "Error", message)
  }

  /** What one iteration of the loop appends. */
  function Appended(kind: string, o: Outcome, last: bool): seq<Condition> {
    match o
    case Ok => if last then [PassedOne(kind), READY] else [PassedOne(kind)]
    case Fail(m) => [FailedOne(kind, m)]
    case Panic => []
  }

  function Passed(labels: seq<string>): seq<Condition> {
    seq(|labels|, i requires 0 <= i < |labels| => PassedOne(labels[i]))
  }

  /**
   * The published list, as a function of how far the loop got: True for the succeeding prefix,
   * one error entry for a failing stage, none for a panicking one, Ready iff all succeeded.
   */
  predicate Published(labels: seq<string>, conditions: seq<Condition>, next: nat, o: Outcome) {
    && next <= |labels|
    && (o.Ok? ==> conditions == Passed(labels[..next]) + (if next == |labels| then [READY] else []))
    && (o.Fail? ==> next > 0 && conditions == Passed(labels[..next - 1]) + [FailedOne(labels[next - 1], o.message)])
    && (o.Panic? ==> next > 0 && conditions == Passed(labels[..next - 1]))
  }

  lemma PublishedStep(labels: seq<string>, conditions: seq<Condition>, next: nat, o: Outcome)
    requires Published(labels, conditions, next, Ok) && next < |labels|
    ensures Published(labels, conditions + Appended(labels[next], o, next + 1 == |labels|), next + 1, o)
  {
    assert labels[..next + 1] == labels[..next] + [labels[next]];
    assert Passed(labels[..next + 1]) == Passed(labels[..next]) + [PassedOne(labels[next])];
  }

  predicate Distinct(labels: seq<string>) {
    && (forall i, j :: 0 <= i < j < |labels| ==> labels[i] != labels[j])
    && forall i :: 0 <= i < |labels| ==> labels[i] != "Ready"
  }

  predicate TypesDistinct(conditions: seq<Condition>) {
    forall i, j :: 0 <= i < j < |conditions| ==> conditions[i].kind != conditions[j].kind
  }

  /**
   * Reading a published list back: Ready is there exactly when every stage succeeded, an error
   * entry exactly when one failed, and condition types are pairwise distinct.
   */
  lemma ReadPublished(labels: seq<string>, conditions: seq<Condition>, next: nat, o: Outcome)
    requires Distinct(labels) && labels != [] && Published(labels, conditions, next, o)
    ensures IsConditionTrue(conditions, "Ready") <==> o.Ok? && next == |labels|
    ensures HasError(conditions) <==> o.Fail?
    ensures TypesDistinct(conditions)
    ensures forall i :: 0 <= i < next && (o.Ok? || i < next - 1) ==> IsConditionTrue(conditions, labels[i])
    ensures forall i :: next <= i < |labels| ==> !IsConditionTrue(conditions, labels[i])
    ensures !o.Ok? ==> !IsConditionTrue(conditions, labels[next - 1])
  {
    var done := if o.Ok? then next else next - 1;
    assert forall i :: 0 <= i < done ==> conditions[i] == PassedOne(labels[i]);
    if o.Ok? && next == |labels| {
      assert conditions[next] == READY;
    }
    if o.Fail? {
      assert IsErrorCondition(conditions[done]);
    }
  }

  // ---- the loop, over any stages ------------------------------------------------------------------

  /** The reconciler's copy of its object, the loop index, and the list and outcome so far. */
  datatype Loop<C> = Loop(copy: C, next: nat, conditions: seq<Condition>, outcome: Outcome)

  /** What is left of the loop; execute(k, s, c) is the k-th stage. */
  function Iterate<S, C>(labels: seq<string>, execute: (nat, S, C) -> (S, C, Outcome), s: S, l: Loop<C>): (S, Loop<C>)
    decreases |labels| - l.next
  {
    if !l.outcome.Ok? || l.next >= |labels| then (s, l)
    else
      var (t, c, o) := execute(l.next, s, l.copy);
      Iterate(labels, execute, t, Loop(c, l.next + 1, l.conditions + Appended(labels[l.next], o, l.next + 1 == |labels|), o))
  }

  /** Reference: the first k stages one after the other, whatever they return. */
  function First<S, C>(execute: (nat, S, C) -> (S, C, Outcome), s: S, c: C, k: nat): (S, C, Outcome) {
    if k == 0 then (s, c, Ok)
    else
      var (t, d, _) := First(execute, s, c, k - 1);
      execute(k - 1, t, d)
  }

  /** The loop has executed exactly the stages before next, and all but the last of them passed. */
  predicate Reached<S(==), C(==)>(execute: (nat, S, C) -> (S, C, Outcome), s: S, c: C, t: S, l: Loop<C>) {
    && (t, l.copy, l.outcome) == First(execute, s, c, l.next)
    && forall j :: 0 <= j < l.next ==> First(execute, s, c, j).2.Ok?
  }

  lemma {:induction false} IteratePublishes<S, C>(labels: seq<string>, execute: (nat, S, C) -> (S, C, Outcome), s: S, l: Loop<C>)
    requires Published(labels, l.conditions, l.next, l.outcome)
    ensures var r := Iterate(labels, execute, s, l).1;
            Published(labels, r.conditions, r.next, r.outcome) && (!r.outcome.Ok? || r.next == |labels|)
    decreases |labels| - l.next
  {
    hide Published, Appended;
    assert l.next <= |labels| by { PublishedBounds(labels, l.conditions, l.next, l.outcome); }
    if l.outcome.Ok? && l.next < |labels| {
      var (t, c, o) := execute(l.next, s, l.copy);
      PublishedStep(labels, l.conditions, l.next, o);
      IteratePublishes(labels, execute, t, Loop(c, l.next + 1, l.conditions + Appended(labels[l.next], o, l.next + 1 == |labels|), o));
    }
  }

  lemma PublishedBounds(labels: seq<string>, conditions: seq<Condition>, next: nat, o: Outcome)
    requires Published(labels, conditions, next, o)
    ensures next <= |labels|
  {
  }

  lemma {:induction false} IterateReaches<S, C>(labels: seq<string>, execute: (nat, S, C) -> (S, C, Outcome), s: S, c: C, t: S, l: Loop<C>)
    requires Reached(execute, s, c, t, l)
    ensures var (u, r) := Iterate(labels, execute, t, l);
            Reached(execute, s, c, u, r)
    decreases |labels| - l.next
  {
    hide Appended;
    if l.outcome.Ok? && l.next < |labels| {
      var (u, d, o) := execute(l.next, t, l.copy);
      IterateReaches(labels, execute, s, c, u,
                     Loop(d, l.next + 1, l.conditions + Appended(labels[l.next], o, l.next + 1 == |labels|), o));
    }
  }

  /**
   * The loop refines the reference: exactly the stages up to the first failure (or all of them)
   * had their effects, in order, and the list says so: True for each that passed, then at most
   * one error entry, then nothing; Ready if and only if every stage passed.
   */
  ghost predicate Refines<S, C>(labels: seq<string>, execute: (nat, S, C) -> (S, C, Outcome), s: S, c: C, t: S, l: Loop<C>) {
    && Reached(execute, s, c, t, l)
    && (l.outcome.Ok? ==> l.next == |labels|)
    && Published(labels, l.conditions, l.next, l.outcome) && TypesDistinct(l.conditions)
    && (IsConditionTrue(l.conditions, "Ready") <==> forall k :: 0 <= k <= |labels| ==> First(execute, s, c, k).2.Ok?)
  }

  lemma LoopRefines<S, C>(labels: seq<string>, execute: (nat, S, C) -> (S, C, Outcome), s: S, c: C)
    requires Distinct(labels) && labels != []
    ensures var (t, l) := Iterate(labels, execute, s, Loop(c, 0, [], Ok));
            Refines(labels, execute, s, c, t, l)
  {
    hide Iterate, IsConditionTrue, Distinct;
    var l0 := Loop(c, 0, [], Ok);
    assert Passed(labels[..0]) == [];
    IteratePublishes(labels, execute, s, l0);
    IterateReaches(labels, execute, s, c, s, l0);
    var (t, l) := Iterate(labels, execute, s, l0);
    ReadPublished(labels, l.conditions, l.next, l.outcome);
    assert First(execute, s, c, l.next).2 == l.outcome;
    hide First, Published, TypesDistinct;
    assert l.next <= |labels| by { PublishedBounds(labels, l.conditions, l.next, l.outcome); }
  }
}
