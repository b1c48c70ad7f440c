/**
 * Replica arithmetic of the Ray builder, on 32-bit integers: worker groups add up every feature's
 * demand for their tier, applications take the scale of the last feature that names them.
 */
module Scale {
  import opened Api

  const TWO31 := 0x8000_0000
  const TWO32 := 0x1_0000_0000
  const MAX_INT32 := TWO31 - 1

  /** The int32 value of an integer result. */
  function Wrap(x: int): (r: int)
    ensures -TWO31 <= r < TWO31
    ensures -TWO31 <= x < TWO31 ==> r == x
  {
    (x + TWO31) % TWO32 - TWO31
  }

  lemma ModShift(a: int, k: int)
    ensures (a + k * TWO32) % TWO32 == a % TWO32
  {
    var q, r := a / TWO32, a % TWO32;
    assert a + k * TWO32 == (q + k) * TWO32 + r;
  }

  /** Adding to a wrapped value and wrapping again loses nothing. */
  lemma WrapAdd(x: int, y: int)
    ensures Wrap(Wrap(x) + y) == Wrap(x + y)
  {
    var k := -((x + TWO31) / TWO32);
    assert Wrap(x) == x + k * TWO32;
    ModShift(x + y + TWO31, k);
  }

  // ---- worker groups ----------------------------------------------------------------------------------

  /** One feature's demand, by tier, for the accelerator in use. */
  type Demand = map<string, int>

  /** The exact total over the features that mention the tier. */
  function Total(demands: seq<Demand>, tier: string): int {
    if demands == [] then 0
    else Total(demands[..|demands| - 1], tier) + At(demands[|demands| - 1], tier)
  }

  function At(d: Demand, tier: string): int {
    if tier in d then d[tier] else 0
  }

  predicate Mentioned(demands: seq<Demand>, tier: string) {
    exists i :: 0 <= i < |demands| && tier in demands[i]
  }

  /** scale holds the int32 total of exactly the tiers mentioned. */
  ghost predicate Aggregated(scale: map<string, int>, demands: seq<Demand>) {
    forall t {:trigger t in scale} ::
      && (t in scale <==> Mentioned(demands, t))
      && (t in scale ==> scale[t] == Wrap(Total(demands, t)))
  }

  /** The state inside the loop over one feature's entries, which come in no fixed order. */
  ghost predicate PartlyAdded(scale: map<string, int>, before: map<string, int>, d: Demand, todo: set<string>) {
    forall t {:trigger t in scale} ::
      && (t in scale <==> t in before || (t in d && t !in todo))
      && (t in scale ==> scale[t] == if t in d && t !in todo then Wrap(At(before, t) + d[t]) else before[t])
  }

  method AddDemand(before: map<string, int>, d: Demand) returns (scale: map<string, int>)
    requires forall t :: t in d ==> -TWO31 <= d[t] < TWO31
    ensures PartlyAdded(scale, before, d, {})
  {
    scale := before;
    var todo := d.Keys;
    while todo != {}
      invariant todo <= d.Keys && PartlyAdded(scale, before, d, todo)
      decreases todo
    {
      var k :| k in todo;
      if k in scale {
        scale := scale[k := Wrap(scale[k] + d[k])];
      } else {
        scale := scale[k := d[k]];
      }
      todo := todo - {k};
    }
  }

  lemma AddedOne(scale: map<string, int>, before: map<string, int>, demands: seq<Demand>, d: Demand)
    requires Aggregated(before, demands) && PartlyAdded(scale, before, d, {})
    ensures Aggregated(scale, demands + [d])
  {
    forall t
      ensures t in scale <==> Mentioned(demands + [d], t)
      ensures t in scale ==> scale[t] == Wrap(Total(demands + [d], t))
    {
      assert (demands + [d])[..|demands + [d]| - 1] == demands;
      WrapAdd(Total(demands, t), At(d, t));
      assert t in before <==> Mentioned(demands, t);
      if Mentioned(demands, t) {
        var i :| 0 <= i < |demands| && t in demands[i];
        assert t in (demands + [d])[i];
      } else {
        NotMentioned(demands, t);
      }
      if t in d {
        assert t in (demands + [d])[|demands|];
      }
      assert t in scale <==> t in before || t in d;
    }
  }

  lemma {:induction false} NotMentioned(demands: seq<Demand>, t: string)
    requires !Mentioned(demands, t)
    ensures Total(demands, t) == 0
    decreases |demands|
  {
    if demands != [] {
      var front := demands[..|demands| - 1];
      assert forall i :: 0 <= i < |front| ==> front[i] == demands[i];
      NotMentioned(front, t);
    }
  }

  /** instanceScale, accumulated feature by feature with 32-bit addition. */
  method InstanceScale(demands: seq<Demand>) returns (scale: map<string, int>)
    requires forall i, t :: 0 <= i < |demands| && t in demands[i] ==> -TWO31 <= demands[i][t] < TWO31
    ensures Aggregated(scale, demands)
  {
    scale := map[];
    for i := 0 to |demands|
      invariant Aggregated(scale, demands[..i])
    {
      ghost var before := scale;
      scale := AddDemand(scale, demands[i]);
      AddedOne(scale, before, demands[..i], demands[i]);
      assert demands[..i + 1] == demands[..i] + [demands[i]];
    }
    assert demands[..|demands|] == demands;
  }

  /** The replicas of each worker group, in order; a tier nobody mentions gets zero. */
  method WorkerReplicas(tiers: seq<string>, demands: seq<Demand>) returns (replicas: seq<int>)
    requires forall i, t :: 0 <= i < |demands| && t in demands[i] ==> -TWO31 <= demands[i][t] < TWO31
    ensures |replicas| == |tiers|
    ensures forall i :: 0 <= i < |tiers| ==> replicas[i] == Wrap(Total(demands, tiers[i]))
  {
    var instanceScale := InstanceScale(demands);
    replicas := [];
    for i := 0 to |tiers|
      invariant |replicas| == i
      invariant forall j :: 0 <= j < i ==> replicas[j] == Wrap(Total(demands, tiers[j]))
    {
      if tiers[i] !in instanceScale {
        NotMentioned(demands, tiers[i]);
      }
      replicas := replicas + [if tiers[i] in instanceScale then instanceScale[tiers[i]] else 0];
    }
  }

  // ---- the total does not depend on the order of the features -----------------------------------------------

  lemma {:induction false} TotalRemove(demands: seq<Demand>, i: nat, tier: string)
    requires i < |demands|
    ensures Total(demands, tier) == At(demands[i], tier) + Total(demands[..i] + demands[i + 1..], tier)
    decreases |demands|
  {
    var n := |demands| - 1;
    if i == n {
      assert demands[..i] + demands[i + 1..] == demands[..n];
    } else {
      var front := demands[..n];
      TotalRemove(front, i, tier);
      var rest := demands[..i] + demands[i + 1..];
      assert rest[..|rest| - 1] == front[..i] + front[i + 1..];
      assert rest[|rest| - 1] == demands[n];
    }
  }

  lemma RestPermutes(a: seq<Demand>, b: seq<Demand>, i: nat)
    requires multiset(a) == multiset(b) && a != [] && i < |b| && b[i] == a[|a| - 1]
    ensures multiset(a[..|a| - 1]) == multiset(b[..i] + b[i + 1..])
  {
    TakenOut(a, |a| - 1);
    assert a[..|a| - 1] + a[|a|..] == a[..|a| - 1];
    TakenOut(b, i);
  }

  lemma TakenOut<T>(a: seq<T>, i: nat)
    requires i < |a|
    ensures multiset(a[..i] + a[i + 1..]) == multiset(a) - multiset{a[i]}
  {
    assert a == a[..i] + ([a[i]] + a[i + 1..]);
    assert multiset(a) == multiset(a[..i]) + (multiset{a[i]} + multiset(a[i + 1..]));
  }

  lemma InMultiset(a: seq<Demand>, b: seq<Demand>)
    requires multiset(a) == multiset(b) && a != []
    ensures a[|a| - 1] in b
  {
    assert a[|a| - 1] in multiset(b);
  }

  /** Reordering the features leaves every tier's total, and so every worker group, as it was. */
  lemma {:induction false} TotalPermutes(a: seq<Demand>, b: seq<Demand>, tier: string)
    requires multiset(a) == multiset(b)
    ensures Total(a, tier) == Total(b, tier)
    decreases |a|
  {
    if a == [] {
      assert |b| == |multiset(b)| == 0;
    } else {
      var n := |a| - 1;
      InMultiset(a, b);
      var i :| 0 <= i < |b| && b[i] == a[n];
      RestPermutes(a, b, i);
      TotalPermutes(a[..n], b[..i] + b[i + 1..], tier);
      TotalRemove(b, i, tier);
    }
  }

  lemma {:induction false} TotalBounded(demands: seq<Demand>, tier: string, bound: int)
    requires 0 <= bound
    requires forall i, t :: 0 <= i < |demands| && t in demands[i] ==> -bound <= demands[i][t] <= bound
    ensures -bound * |demands| <= Total(demands, tier) <= bound * |demands|
    decreases |demands|
  {
    if demands != [] {
      var front := demands[..|demands| - 1];
      assert forall i :: 0 <= i < |front| ==> front[i] == demands[i];
      TotalBounded(front, tier, bound);
      assert -bound <= At(demands[|demands| - 1], tier) <= bound by { assert tier in demands[|demands| - 1] || At(demands[|demands| - 1], tier) == 0; }
      assert bound * |demands| == bound * |front| + bound;
    }
  }

  /** With at most ten features, each asking for at most a tenth of the range, nothing wraps. */
  lemma NoOverflow(demands: seq<Demand>, tier: string)
    requires |demands| <= 10
    requires forall i, t :: 0 <= i < |demands| && t in demands[i] ==> -(MAX_INT32 / 10) <= demands[i][t] <= MAX_INT32 / 10
    ensures Wrap(Total(demands, tier)) == Total(demands, tier)
  {
    hide Total, Wrap;
    TotalBounded(demands, tier, 214748364);
    assert 214748364 * |demands| <= 2147483640;
  }

  /** The bound is tight: eleven features at it do wrap. */
  lemma ElevenOverflow(tier: string)
    ensures var d: Demand := map[tier := MAX_INT32 / 10];
            Wrap(Total(seq(11, _ => d), tier)) < 0
  {
    var d: Demand := map[tier := MAX_INT32 / 10];
    TotalRepeated(d, tier, 11);
  }

  lemma {:induction false} TotalRepeated(d: Demand, tier: string, n: nat)
    ensures Total(seq(n, _ => d), tier) == n * At(d, tier)
  {
    if n > 0 {
      var s := seq(n, _ => d);
      assert s[..n - 1] == seq(n - 1, _ => d);
      TotalRepeated(d, tier, n - 1);
    }
  }

  // ---- applications -----------------------------------------------------------------------------------------

  /** A feature's applications with their base replicas; unreadable files make it None. */
  datatype AppFeature = AppFeature(apps: Option<map<string, int>>, scaleFactor: Option<int>)

  function Multiplier(f: AppFeature): int {
    if f.scaleFactor.Some? then f.scaleFactor.value else 1
  }

  predicate Names(f: AppFeature, app: string) {
    f.apps.Some? && app in f.apps.value
  }

  /** The last readable feature that names the application. */
  function LastNaming(fs: seq<AppFeature>, app: string): (r: Option<nat>)
    ensures r.Some? ==> r.value < |fs| && Names(fs[r.value], app)
    ensures r.Some? ==> forall j :: r.value < j < |fs| ==> !Names(fs[j], app)
    ensures r.None? ==> forall j :: 0 <= j < |fs| ==> !Names(fs[j], app)
  {
    if fs == [] then None
    else if Names(fs[|fs| - 1], app) then Some(|fs| - 1)
    else LastNaming(fs[..|fs| - 1], app)
  }

  function AppReplicas(f: AppFeature, app: string): int
    requires Names(f, app)
  {
    Wrap(f.apps.value[app] * Multiplier(f))
  }

  ghost predicate Scaled(replicas: map<string, int>, fs: seq<AppFeature>) {
    forall app {:trigger app in replicas} ::
      var last := LastNaming(fs, app);
      && (app in replicas <==> last.Some?)
      && (app in replicas ==> replicas[app] == AppReplicas(fs[last.value], app))
  }

  /** replicasMap: base replicas times scaleFactor, a later feature overwriting an earlier one. */
  method ReplicasMap(fs: seq<AppFeature>) returns (replicas: map<string, int>)
    ensures Scaled(replicas, fs) && ScaledByLast(replicas, fs)
  {
    hide ScaledByLast;
    replicas := map[];
    for i := 0 to |fs|
      invariant Scaled(replicas, fs[..i])
    {
      assert fs[..i + 1][..i] == fs[..i];
      if fs[i].apps.None? {
        continue;
      }
      var multiplier := 1;
      if fs[i].scaleFactor.Some? {
        multiplier := fs[i].scaleFactor.value;
      }
      ghost var before := replicas;
      var apps := fs[i].apps.value;
      var todo := apps.Keys;
      while todo != {}
        invariant todo <= apps.Keys
        invariant forall app :: app in replicas <==> app in before || (app in apps && app !in todo)
        invariant forall app :: app in replicas ==>
                    replicas[app] == if app in apps && app !in todo then Wrap(apps[app] * multiplier) else before[app]
        decreases todo
      {
        var app :| app in todo;
        replicas := replicas[app := Wrap(apps[app] * multiplier)];
        todo := todo - {app};
      }
      OverwrittenByLast(replicas, before, fs, i);
    }
    assert fs[..|fs|] == fs;
    ScaledMeans(replicas, fs);
  }

  lemma OverwrittenByLast(replicas: map<string, int>, before: map<string, int>, fs: seq<AppFeature>, i: nat)
    requires i < |fs| && fs[i].apps.Some? && Scaled(before, fs[..i])
    requires forall app :: app in replicas <==> app in before || app in fs[i].apps.value
    requires forall app :: app in replicas ==>
               replicas[app] == if app in fs[i].apps.value then Wrap(fs[i].apps.value[app] * Multiplier(fs[i])) else before[app]
    ensures Scaled(replicas, fs[..i + 1])
  {
    assert fs[..i + 1][..i] == fs[..i] && fs[..i + 1][i] == fs[i];
    forall app
      ensures app in replicas <==> LastNaming(fs[..i + 1], app).Some?
      ensures app in replicas ==> replicas[app] == AppReplicas(fs[..i + 1][LastNaming(fs[..i + 1], app).value], app)
    {
      assert app in before <==> LastNaming(fs[..i], app).Some?;
    }
  }

  /** Entry by entry: exactly the applications some readable feature names, each scaled by the last one that does. */
  ghost predicate ScaledByLast(replicas: map<string, int>, fs: seq<AppFeature>) {
    && (forall app :: app in replicas ==> exists i :: 0 <= i < |fs| && Names(fs[i], app))
    && (forall app, i :: 0 <= i < |fs| && Names(fs[i], app) && (forall j :: i < j < |fs| ==> !Names(fs[j], app)) ==>
          && app in replicas
          && replicas[app] == Wrap(fs[i].apps.value[app] * (if fs[i].scaleFactor.Some? then fs[i].scaleFactor.value else 1)))
  }

  lemma ScaledMeans(replicas: map<string, int>, fs: seq<AppFeature>)
    requires Scaled(replicas, fs)
    ensures ScaledByLast(replicas, fs)
  {
    hide Wrap;
    forall app, i | 0 <= i < |fs| && Names(fs[i], app) && (forall j :: i < j < |fs| ==> !Names(fs[j], app))
      ensures app in replicas
      ensures replicas[app] == Wrap(fs[i].apps.value[app] * (if fs[i].scaleFactor.Some? then fs[i].scaleFactor.value else 1))
    {
      assert LastNaming(fs, app) == Some(i);
      assert app in replicas;
    }
    forall app | app in replicas ensures exists i :: 0 <= i < |fs| && Names(fs[i], app) {
      assert Names(fs[LastNaming(fs, app).value], app);
    }
  }

  /** When no two features name the same application, the order of the features does not matter either. */
  lemma ScaledPermutes(a: map<string, int>, b: map<string, int>, fs: seq<AppFeature>, gs: seq<AppFeature>)
    requires Scaled(a, fs) && Scaled(b, gs)
    requires forall f :: f in fs <==> f in gs
    requires forall i, j, app :: 0 <= i < |gs| && 0 <= j < |gs| && Names(gs[i], app) && Names(gs[j], app) ==> gs[i] == gs[j]
    ensures a == b
  {
    forall app
      ensures app in a <==> app in b
      ensures app in a ==> a[app] == b[app]
    {
      var i, j := LastNaming(fs, app), LastNaming(gs, app);
      assert app in a <==> i.Some?;
      assert app in b <==> j.Some?;
      if i.Some? {
        assert fs[i.value] in gs;
      }
      if j.Some? {
        assert gs[j.value] in fs;
      }
    }
  }
}
