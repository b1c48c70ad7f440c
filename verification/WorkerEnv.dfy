/** The environment of a Ray worker: built-in entries overlaid with a map iterated in no fixed order. */
module WorkerEnv {
  import opened Api

  datatype EnvVar = EnvVar(name: string, value: string)

  function DefaultEnv(accelerator: string, platform: string, ns: string, clusterDomain: string): seq<EnvVar> {
    [EnvVar("DEFAULT_GPU_TYPE", accelerator),
     EnvVar("RAY_HEAD_SERVICE_HOST", platform + "-head-svc." + ns + ".svc." + clusterDomain),
     EnvVar("SERVICE_NAME", platform),
     EnvVar("SERVICE_INTERNAL_NAME", platform),
     EnvVar("USE_SYSTEM_PERMISSIONS", "true"),
     EnvVar("GPG_PUBLICKEY_PATH", "kv-splunk/al-platform.ray-worker-sa/gpgkey"),
     EnvVar("GPU_TYPE", accelerator)]
  }

  predicate DistinctNames(env: seq<EnvVar>) {
    forall i, j :: 0 <= i < j < |env| ==> env[i].name != env[j].name
  }

  lemma DefaultNamesDistinct(accelerator: string, platform: string, ns: string, clusterDomain: string)
    ensures DistinctNames(DefaultEnv(accelerator, platform, ns, clusterDomain))
  {
    var names := ["DEFAULT_GPU_TYPE", "RAY_HEAD_SERVICE_HOST", "SERVICE_NAME", "SERVICE_INTERNAL_NAME", "USE_SYSTEM_PERMISSIONS",
                  "GPG_PUBLICKEY_PATH", "GPU_TYPE"];
    assert |names[0]| == 16 && |names[1]| == 21 && |names[2]| == 12 && |names[3]| == 21 && |names[4]| == 22 && |names[5]| == 18 && |names[6]| == 8;
    assert names[1][0] != names[3][0];
  }

  /** What a container sees: the value of the first entry of that name. */
  function Lookup(env: seq<EnvVar>, name: string): Option<string> {
    if env == [] then None
    else if env[0].name == name then Some(env[0].value)
    else Lookup(env[1..], name)
  }

  /** One iteration: overwrite the first entry of that name, or append. */
  function Put(env: seq<EnvVar>, key: string, value: string): seq<EnvVar> {
    if env == [] then [EnvVar(key, value)]
    else if env[0].name == key then [EnvVar(key, value)] + env[1..]
    else [env[0]] + Put(env[1..], key, value)
  }

  /** The keys put in the given order, the last one last. */
  function Merged(defaults: seq<EnvVar>, order: seq<string>, env: map<string, string>): seq<EnvVar>
    requires forall k :: k in order ==> k in env
  {
    if order == [] then defaults
    else Put(Merged(defaults, order[..|order| - 1], env), order[|order| - 1], env[order[|order| - 1]])
  }

  /** An order in which a map may be iterated: each key once. */
  ghost predicate IterationOrder(order: seq<string>, env: map<string, string>) {
    && (forall k :: k in order <==> k in env)
    && (forall i, j :: 0 <= i < j < |order| ==> order[i] != order[j])
  }

  // ---- one iteration -------------------------------------------------------------------------------

  lemma {:induction false} PutLooksUp(env: seq<EnvVar>, key: string, value: string, n: string)
    ensures Lookup(Put(env, key, value), n) == if n == key then Some(value) else Lookup(env, n)
  {
    if env == [] {
      assert Put(env, key, value)[1..] == [];
    } else if env[0].name == key {
      assert Put(env, key, value)[1..] == env[1..];
    } else {
      assert Put(env, key, value)[1..] == Put(env[1..], key, value);
      PutLooksUp(env[1..], key, value, n);
    }
  }

  lemma {:induction false} PutKeepsNames(env: seq<EnvVar>, key: string, value: string)
    requires DistinctNames(env)
    ensures DistinctNames(Put(env, key, value))
    ensures |env| <= |Put(env, key, value)|
    ensures forall i :: 0 <= i < |env| ==> Put(env, key, value)[i].name == env[i].name
    ensures forall i :: |env| <= i < |Put(env, key, value)| ==> Put(env, key, value)[i].name == key
  {
    if env != [] && env[0].name != key {
      assert DistinctNames(env[1..]);
      PutKeepsNames(env[1..], key, value);
      var rest := Put(env[1..], key, value);
      assert Put(env, key, value)[1..] == rest;
      forall i | 0 <= i < |rest| ensures rest[i].name != env[0].name {
        if i < |env[1..]| {
          assert rest[i].name == env[i + 1].name;
        }
      }
    }
  }

  lemma SkipOne(env: seq<EnvVar>, key: string, value: string, i: nat)
    requires i < |env| && env[i].name != key
    ensures env[..i] + Put(env[i..], key, value) == env[..i + 1] + Put(env[i + 1..], key, value)
  {
    assert env[i..][1..] == env[i + 1..];
  }

  lemma FoundAt(env: seq<EnvVar>, key: string, value: string, i: nat)
    requires i < |env| && env[i].name == key
    ensures env[..i] + Put(env[i..], key, value) == env[i := EnvVar(key, value)]
  {
    assert env[i..][1..] == env[i + 1..];
    assert Put(env[i..], key, value) == [EnvVar(key, value)] + env[i + 1..];
    hide Put;
    assert env[i := EnvVar(key, value)] == env[..i] + ([EnvVar(key, value)] + env[i + 1..]);
  }

  /** The inner loop finds the entry and overwrites it in place, or finds none. */
  method PutInPlace(env: seq<EnvVar>, key: string, value: string) returns (combined: seq<EnvVar>)
    ensures combined == Put(env, key, value)
  {
    hide Put;
    combined := env;
    assert env[..0] == [] && env[0..] == env;
    for i := 0 to |env|
      invariant combined == env
      invariant Put(env, key, value) == env[..i] + Put(env[i..], key, value)
    {
      if combined[i].name == key {
        FoundAt(env, key, value, i);
        combined := combined[i := combined[i].(value := value)];
        return;
      }
      SkipOne(env, key, value, i);
    }
    AppendedLast(env, key, value);
    combined := combined + [EnvVar(key, value)];
  }

  lemma AppendedLast(env: seq<EnvVar>, key: string, value: string)
    ensures env[..|env|] + Put(env[|env|..], key, value) == env + [EnvVar(key, value)]
  {
    assert env[..|env|] == env && env[|env|..] == [];
  }

  method MergeEnv(defaults: seq<EnvVar>, env: map<string, string>) returns (combined: seq<EnvVar>, ghost order: seq<string>)
    ensures IterationOrder(order, env)
    ensures combined == Merged(defaults, order, env)
    ensures forall n :: Lookup(combined, n) == if n in env then Some(env[n]) else Lookup(defaults, n)
    ensures DistinctNames(defaults) ==>
              DistinctNames(combined) && |defaults| <= |combined|
              && forall i :: 0 <= i < |defaults| ==> combined[i].name == defaults[i].name
  {
    hide Lookup;
    combined, order := defaults, [];
    var todo := env.Keys;
    while todo != {}
      invariant todo <= env.Keys
      invariant forall k :: k in order <==> k in env && k !in todo
      invariant forall i, j :: 0 <= i < j < |order| ==> order[i] != order[j]
      invariant combined == Merged(defaults, order, env)
      decreases todo
    {
      var key :| key in todo;
      todo := todo - {key};
      ghost var before := order;
      order := order + [key];
      assert order[..|order| - 1] == before;
      combined := PutInPlace(combined, key, env[key]);
    }
    forall n ensures Lookup(combined, n) == if n in env then Some(env[n]) else Lookup(defaults, n) {
      MergedLooksUp(defaults, order, env, n);
    }
    if DistinctNames(defaults) {
      MergedNames(defaults, order, env);
    }
  }

  // ---- every order ---------------------------------------------------------------------------------------

  /** The built-in entries keep their positions; every name is there once. */
  lemma {:induction false} MergedNames(defaults: seq<EnvVar>, order: seq<string>, env: map<string, string>)
    requires DistinctNames(defaults) && forall k :: k in order ==> k in env
    ensures var m := Merged(defaults, order, env);
            && DistinctNames(m) && |defaults| <= |m|
            && forall i :: 0 <= i < |defaults| ==> m[i].name == defaults[i].name
    decreases |order|
  {
    if order != [] {
      MergedNames(defaults, order[..|order| - 1], env);
      var last := order[|order| - 1];
      PutKeepsNames(Merged(defaults, order[..|order| - 1], env), last, env[last]);
    }
  }

  lemma {:induction false} MergedOver(defaults: seq<EnvVar>, order: seq<string>, env: map<string, string>, n: string)
    requires forall k :: k in order ==> k in env
    ensures Lookup(Merged(defaults, order, env), n) == if n in order then Some(env[n]) else Lookup(defaults, n)
    decreases |order|
  {
    if order != [] {
      var front, last := order[..|order| - 1], order[|order| - 1];
      MergedOver(defaults, front, env, n);
      PutLooksUp(Merged(defaults, front, env), last, env[last], n);
      assert order == front + [last];
    }
  }

  /** The merge is the map laid over the defaults, whatever the order. */
  lemma MergedLooksUp(defaults: seq<EnvVar>, order: seq<string>, env: map<string, string>, n: string)
    requires IterationOrder(order, env)
    ensures Lookup(Merged(defaults, order, env), n) == if n in env then Some(env[n]) else Lookup(defaults, n)
  {
    MergedOver(defaults, order, env, n);
  }

  /** What a worker sees under each name, whatever the order of the map: the user's value, or else the built-in one. */
  lemma WorkerSees(accelerator: string, platform: string, ns: string, clusterDomain: string, order: seq<string>, env: map<string, string>, n: string)
    requires IterationOrder(order, env)
    ensures Lookup(Merged(DefaultEnv(accelerator, platform, ns, clusterDomain), order, env), n) ==
              if n in env then Some(env[n])
              else if n == "DEFAULT_GPU_TYPE" || n == "GPU_TYPE" then Some(accelerator)
              else if n == "RAY_HEAD_SERVICE_HOST" then Some(platform + "-head-svc." + ns + ".svc." + clusterDomain)
              else if n == "SERVICE_NAME" || n == "SERVICE_INTERNAL_NAME" then Some(platform)
              else if n == "USE_SYSTEM_PERMISSIONS" then Some("true")
              else if n == "GPG_PUBLICKEY_PATH" then Some("kv-splunk/al-platform.ray-worker-sa/gpgkey")
              else None
  {
    var d := DefaultEnv(accelerator, platform, ns, clusterDomain);
    MergedLooksUp(d, order, env, n);
    DefaultNamesDistinct(accelerator, platform, ns, clusterDomain);
    hide Merged, Lookup, IterationOrder;
    forall i | 0 <= i < |d| ensures Lookup(d, d[i].name) == Some(d[i].value) {
      assert d[i] in d;
      EntryIffLookup(d, d[i]);
    }
    assert d[0].name == "DEFAULT_GPU_TYPE" && d[1].name == "RAY_HEAD_SERVICE_HOST" && d[2].name == "SERVICE_NAME" && d[3].name == "SERVICE_INTERNAL_NAME"
        && d[4].name == "USE_SYSTEM_PERMISSIONS" && d[5].name == "GPG_PUBLICKEY_PATH" && d[6].name == "GPU_TYPE";
    LookupAbsent(d, n);
  }

  lemma {:induction false} LookupAbsent(env: seq<EnvVar>, n: string)
    ensures (forall i :: 0 <= i < |env| ==> env[i].name != n) ==> Lookup(env, n) == None
  {
    if env != [] {
      assert forall i :: 0 <= i < |env[1..]| ==> env[1..][i] == env[i + 1];
      LookupAbsent(env[1..], n);
    }
  }

  lemma {:induction false} EntryIffLookup(env: seq<EnvVar>, e: EnvVar)
    requires DistinctNames(env)
    ensures e in env <==> Lookup(env, e.name) == Some(e.value)
  {
    if env == [] {
    } else {
      assert DistinctNames(env[1..]);
      EntryIffLookup(env[1..], e);
      assert e in env <==> e == env[0] || e in env[1..];
      assert forall i :: 0 <= i < |env[1..]| ==> env[1..][i] == env[i + 1];
    }
  }

  lemma {:induction false} DistinctOnce(env: seq<EnvVar>, e: EnvVar)
    requires DistinctNames(env)
    ensures multiset(env)[e] == if e in env then 1 else 0
  {
    if env == [] {
    } else {
      assert env == [env[0]] + env[1..];
      assert DistinctNames(env[1..]);
      DistinctOnce(env[1..], e);
      assert forall i :: 0 <= i < |env[1..]| ==> env[1..][i] == env[i + 1];
    }
  }

  /** Two iterations of the same map give permutations of each other. */
  lemma OrdersPermute(defaults: seq<EnvVar>, a: seq<string>, b: seq<string>, env: map<string, string>)
    requires DistinctNames(defaults) && IterationOrder(a, env) && IterationOrder(b, env)
    ensures multiset(Merged(defaults, a, env)) == multiset(Merged(defaults, b, env))
  {
    var m, n := Merged(defaults, a, env), Merged(defaults, b, env);
    MergedNames(defaults, a, env);
    MergedNames(defaults, b, env);
    forall e: EnvVar ensures multiset(m)[e] == multiset(n)[e] {
      MergedLooksUp(defaults, a, env, e.name);
      MergedLooksUp(defaults, b, env, e.name);
      EntryIffLookup(m, e);
      EntryIffLookup(n, e);
      DistinctOnce(m, e);
      DistinctOnce(n, e);
    }
  }
}
