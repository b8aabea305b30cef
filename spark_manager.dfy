/**
 * KubeSparkManager of src/spark_manager.py: per-user names, environment
 * validation, the template values of the three resources, create-or-replace
 * against the platform, and create_cluster's strictly ordered application.
 */
module SparkManager {
  import opened Wrappers
  import opened Text
  import opened Templates
  import opened KubeStore
  import opened Exceptions

  type Env = map<string, string>

  /** REQUIRED_ENV_VARS, in declaration order: (name, description). */
  const RequiredEnvVars: seq<(string, string)> := [
    ("KUBE_NAMESPACE", "Kubernetes namespace for Spark clusters"),
    ("SPARK_IMAGE", "Docker image for Spark master and workers"),
    ("POSTGRES_USER", "PostgreSQL username"),
    ("POSTGRES_PASSWORD", "PostgreSQL password"),
    ("POSTGRES_DB", "PostgreSQL database name"),
    ("POSTGRES_URL", "PostgreSQL connection URL")
  ]

  const MASTER_DEPLOYMENT_TEMPLATE := "spark_master_deployment.yaml"
  const WORKER_DEPLOYMENT_TEMPLATE := "spark_worker_deployment.yaml"
  const MASTER_SERVICE_TEMPLATE := "spark_master_service.yaml"

  const DEFAULT_EXECUTOR_CORES := 2
  const DEFAULT_MAX_CORES_PER_APPLICATION := 10
  const DEFAULT_MAX_EXECUTORS := 5
  const DEFAULT_MASTER_PORT := 7077
  const DEFAULT_MASTER_WEBUI_PORT := 8090
  const DEFAULT_WORKER_WEBUI_PORT := 8081

  // ---------------------------------------------------------------------
  // validate_environment
  // ---------------------------------------------------------------------

  /** `not value or not value.strip()`, where an absent variable reads as None. */
  predicate IsMissing(env: Env, name: string) {
    name !in env || IsBlank(env[name])
  }

  /** Every variable of the table is set to something other than whitespace. */
  predicate AllPresent(env: Env, vars: seq<(string, string)>) {
    forall i :: 0 <= i < |vars| ==> !IsMissing(env, vars[i].0)
  }

  predicate ValidEnvironment(env: Env) {
    AllPresent(env, RequiredEnvVars)
  }

  const RequiredNames: set<string> := set i | 0 <= i < |RequiredEnvVars| :: RequiredEnvVars[i].0

  /** The six variables the manager reads with os.environ[...] are present. */
  predicate RequiredPresent(env: Env) {
    && "KUBE_NAMESPACE" in env && "SPARK_IMAGE" in env
    && "POSTGRES_USER" in env && "POSTGRES_PASSWORD" in env
    && "POSTGRES_DB" in env && "POSTGRES_URL" in env
  }

  lemma ValidEnvironmentPresent(env: Env)
    requires ValidEnvironment(env)
    ensures RequiredPresent(env)
  {
    assert !IsMissing(env, RequiredEnvVars[0].0) && !IsMissing(env, RequiredEnvVars[1].0);
    assert !IsMissing(env, RequiredEnvVars[2].0) && !IsMissing(env, RequiredEnvVars[3].0);
    assert !IsMissing(env, RequiredEnvVars[4].0) && !IsMissing(env, RequiredEnvVars[5].0);
  }

  /** f"{var} ({description})". */
  function Describe(entry: (string, string)): string {
    entry.0 + " (" + entry.1 + ")"
  }

  /** The descriptions of the missing variables, in table order. */
  function MissingOf(env: Env, vars: seq<(string, string)>): (r: seq<string>)
    ensures |r| <= |vars|
    decreases |vars|
  {
    if vars == [] then []
    else
      var last := vars[|vars| - 1];
      MissingOf(env, vars[..|vars| - 1]) + (if IsMissing(env, last.0) then [Describe(last)] else [])
  }

  /** validate_environment raises exactly when some variable is missing. */
  lemma {:induction false} MissingOfEmpty(env: Env, vars: seq<(string, string)>)
    ensures MissingOf(env, vars) == [] <==> AllPresent(env, vars)
    decreases |vars|
  {
    if vars != [] {
      var init := vars[..|vars| - 1];
      MissingOfEmpty(env, init);
      if AllPresent(env, vars) {
        assert forall i :: 0 <= i < |init| ==> init[i] == vars[i];
      }
      if AllPresent(env, init) && !IsMissing(env, vars[|vars| - 1].0) {
        forall i | 0 <= i < |vars| ensures !IsMissing(env, vars[i].0) {
          if i < |init| { assert vars[i] == init[i]; }
        }
      }
    }
  }

  /** The report names every missing variable, and nothing but missing variables. */
  lemma {:induction false} MissingOfLists(env: Env, vars: seq<(string, string)>)
    ensures forall i :: 0 <= i < |vars| && IsMissing(env, vars[i].0) ==> Describe(vars[i]) in MissingOf(env, vars)
    ensures forall d :: d in MissingOf(env, vars) ==>
      exists i :: 0 <= i < |vars| && IsMissing(env, vars[i].0) && d == Describe(vars[i])
    decreases |vars|
  {
    if vars != [] {
      var init := vars[..|vars| - 1];
      MissingOfLists(env, init);
      forall i | 0 <= i < |vars| && IsMissing(env, vars[i].0) ensures Describe(vars[i]) in MissingOf(env, vars) {
        if i < |init| { assert vars[i] == init[i]; }
      }
      forall d | d in MissingOf(env, vars)
        ensures exists i :: 0 <= i < |vars| && IsMissing(env, vars[i].0) && d == Describe(vars[i])
      {
        if d in MissingOf(env, init) {
          var i :| 0 <= i < |init| && IsMissing(env, init[i].0) && d == Describe(init[i]);
          assert vars[i] == init[i];
        } else {
          assert d == Describe(vars[|vars| - 1]);
        }
      }
    }
  }

  function Bullets(items: seq<string>): seq<string> {
    seq(|items|, j requires 0 <= j < |items| => "- " + items[j])
  }

  /** The ValueError text for the given missing entries. */
  function MissingMessage(missing: seq<string>): (m: string)
    ensures |m| >= 40 && m[..40] == "Missing required environment variables:\n"
    ensures missing == [] ==> |m| == 40
    ensures missing != [] ==> |m| > 40
    ensures |missing| == 1 ==> m[40..] == "- " + missing[0]
  {
    "Missing required environment variables:\n" + Join("\n", Bullets(missing))
  }

  /** Each further missing variable adds one line "- NAME (description)" after a newline. */
  lemma MissingMessageSnoc(missing: seq<string>, entry: string)
    requires missing != []
    ensures MissingMessage(missing + [entry]) == MissingMessage(missing) + "\n" + "- " + entry
  {
    var bs := Bullets(missing);
    assert Bullets(missing + [entry]) == bs + ["- " + entry];
    JoinSnoc("\n", bs, "- " + entry);
  }

  /** The missing variables, in declaration order, for the whole table. */
  function MissingVars(env: Env): seq<string> {
    MissingOf(env, RequiredEnvVars)
  }

  // ---------------------------------------------------------------------
  // Names and URLs
  // ---------------------------------------------------------------------

  function MasterName(username: string): (n: string)
    ensures |n| == 13 + |username| && n[..13] == "spark-master-" && n[13..] == Lower(username)
  {
    "spark-master-" + Lower(username)
  }

  function WorkerName(username: string): (n: string)
    ensures |n| == 13 + |username| && n[..13] == "spark-worker-" && n[13..] == Lower(username)
  {
    "spark-worker-" + Lower(username)
  }

  /** f"spark-{username.lower()}-{uuid4()[:8]}", the uuid prefix given as suffix. */
  function ClusterId(username: string, suffix: string): (id: string)
    ensures |id| == 7 + |username| + |suffix| && id[..6] == "spark-" && id[6 + |username|] == '-'
    ensures id[6..6 + |username|] == Lower(username)
    ensures id[|id| - |suffix|..] == suffix
  {
    "spark-" + Lower(username) + "-" + suffix
  }

  lemma PrefixCancels(p: string, a: string, b: string)
    ensures p + a == p + b <==> a == b
  {
    if p + a == p + b {
      assert a == (p + a)[|p|..] && b == (p + b)[|p|..];
    }
  }

  /** The resource names are fixed by the lower-cased username alone. */
  lemma NamesFixedByUsername(u1: string, u2: string)
    ensures MasterName(u1) == MasterName(u2) <==> Lower(u1) == Lower(u2)
    ensures WorkerName(u1) == WorkerName(u2) <==> Lower(u1) == Lower(u2)
  {
    PrefixCancels("spark-master-", Lower(u1), Lower(u2));
    PrefixCancels("spark-worker-", Lower(u1), Lower(u2));
  }

  /** Two managers for one user share names while their cluster ids differ with the random suffix. */
  lemma ClusterIdVaries(u: string, s1: string, s2: string)
    ensures ClusterId(u, s1) == ClusterId(u, s2) <==> s1 == s2
  {
    PrefixCancels("spark-" + Lower(u) + "-", s1, s2);
  }

  /** No user's master name is any user's worker name. */
  lemma MasterWorkerDistinct(u1: string, u2: string)
    ensures MasterName(u1) != WorkerName(u2)
  {
    assert MasterName(u1)[6] == 'm' && WorkerName(u2)[6] == 'w';
  }

  function MasterUrl(masterName: string, namespace: string): (u: string)
    ensures |u| >= 13 && u[..8] == "spark://" && u[|u| - 5..] == ":7077"
  {
    "spark://" + masterName + "." + namespace + ":" + IntToString(DEFAULT_MASTER_PORT)
  }

  function MasterUiUrl(masterName: string, namespace: string): (u: string)
    ensures |u| >= 12 && u[..7] == "http://" && u[|u| - 5..] == ":8090"
  {
    "http://" + masterName + "." + namespace + ":" + IntToString(DEFAULT_MASTER_WEBUI_PORT)
  }

  lemma UrlsSpelledOut(masterName: string, namespace: string)
    ensures MasterUrl(masterName, namespace) == "spark://" + masterName + "." + namespace + ":7077"
    ensures MasterUiUrl(masterName, namespace) == "http://" + masterName + "." + namespace + ":8090"
  {
    assert NatToString(7) == "7" && NatToString(70) == "70" && NatToString(707) == "707";
    assert NatToString(8) == "8" && NatToString(80) == "80" && NatToString(809) == "809";
  }

  // ---------------------------------------------------------------------
  // Template values
  // ---------------------------------------------------------------------

  /** The first value under key, as dict lookup on distinct keys. */
  function Lookup(values: seq<(string, Value)>, key: string): Option<Value>
    decreases |values|
  {
    if values == [] then None
    else if values[0].0 == key then Some(values[0].1)
    else Lookup(values[1..], key)
  }

  predicate DistinctKeys(values: seq<(string, Value)>) {
    forall i, j :: 0 <= i < j < |values| ==> values[i].0 != values[j].0
  }

  predicate DistinctStrings(ks: seq<string>) {
    forall i, j :: 0 <= i < j < |ks| ==> ks[i] != ks[j]
  }

  /** A values list whose keys are, in order, a list of distinct strings has distinct keys. */
  lemma KeysFromList(values: seq<(string, Value)>, ks: seq<string>)
    requires |values| == |ks| && DistinctStrings(ks)
    requires forall i :: 0 <= i < |ks| ==> values[i].0 == ks[i]
    ensures DistinctKeys(values)
  {
  }

  const PostgresKeys: seq<string> := ["POSTGRES_USER", "POSTGRES_PASSWORD", "POSTGRES_DB", "POSTGRES_URL"]

  /** The keys of the master deployment's map, in the source order. */
  const MasterDeploymentKeys: seq<string> := [
    "MASTER_NAME", "NAMESPACE", "USERNAME", "USERNAME_LOWER", "CLUSTER_ID", "IMAGE",
    "IMAGE_PULL_POLICY", "MASTER_PORT", "MASTER_WEBUI_PORT", "MAX_EXECUTORS",
    "MAX_CORES_PER_APPLICATION", "EXECUTOR_CORES", "MASTER_MEMORY", "MASTER_CORES"
  ] + PostgresKeys

  /** The keys of the worker deployment's map, in the source order. */
  const WorkerDeploymentKeys: seq<string> := [
    "WORKER_NAME", "NAMESPACE", "USERNAME", "CLUSTER_ID", "IMAGE", "IMAGE_PULL_POLICY",
    "MASTER_NAME", "MASTER_PORT", "WORKER_COUNT", "WORKER_CORES", "WORKER_MEMORY",
    "WORKER_WEBUI_PORT"
  ] + PostgresKeys

  lemma MasterDeploymentKeysDistinct()
    ensures DistinctStrings(MasterDeploymentKeys)
  {
  }

  lemma WorkerDeploymentKeysDistinct()
    ensures DistinctStrings(WorkerDeploymentKeys)
  {
  }

  /** On distinct keys, looking up the key at position i finds the value at position i. */
  lemma {:induction false} LookupAt(values: seq<(string, Value)>, i: nat)
    requires DistinctKeys(values) && i < |values|
    ensures Lookup(values, values[i].0) == Some(values[i].1)
    decreases i
  {
    if i > 0 {
      var rest := values[1..];
      assert DistinctKeys(rest) by {
        forall a, b | 0 <= a < b < |rest| ensures rest[a].0 != rest[b].0 {
          assert rest[a] == values[a + 1] && rest[b] == values[b + 1];
        }
      }
      LookupAt(rest, i - 1);
      assert rest[i - 1] == values[i];
      assert values[0].0 != values[i].0;
    }
  }

  /** os.environ.get(name, default). */
  function EnvOr(env: Env, name: string, default: Value): Value {
    if name in env then StrValue(env[name]) else default
  }

  /** DEFAULT_IMAGE_PULL_POLICY. */
  function PullPolicy(env: Env): string {
    if "SPARK_IMAGE_PULL_POLICY" in env then env["SPARK_IMAGE_PULL_POLICY"] else "IfNotPresent"
  }

  function PostgresValues(env: Env): seq<(string, Value)>
    requires RequiredPresent(env)
  {
    [
      ("POSTGRES_USER", StrValue(env["POSTGRES_USER"])),
      ("POSTGRES_PASSWORD", StrValue(env["POSTGRES_PASSWORD"])),
      ("POSTGRES_DB", StrValue(env["POSTGRES_DB"])),
      ("POSTGRES_URL", StrValue(env["POSTGRES_URL"]))
    ]
  }

  function MasterDeploymentValues(username: string, env: Env, clusterId: string, cores: int, memory: string): (r: seq<(string, Value)>)
    requires RequiredPresent(env)
    ensures DistinctKeys(r)
  {
    var r := [
      ("MASTER_NAME", StrValue(MasterName(username))),
      ("NAMESPACE", StrValue(env["KUBE_NAMESPACE"])),
      ("USERNAME", StrValue(username)),
      ("USERNAME_LOWER", StrValue(Lower(username))),
      ("CLUSTER_ID", StrValue(clusterId)),
      ("IMAGE", StrValue(env["SPARK_IMAGE"])),
      ("IMAGE_PULL_POLICY", StrValue(PullPolicy(env))),
      ("MASTER_PORT", IntValue(DEFAULT_MASTER_PORT)),
      ("MASTER_WEBUI_PORT", IntValue(DEFAULT_MASTER_WEBUI_PORT)),
      ("MAX_EXECUTORS", EnvOr(env, "MAX_EXECUTORS", IntValue(DEFAULT_MAX_EXECUTORS))),
      ("MAX_CORES_PER_APPLICATION", EnvOr(env, "MAX_CORES_PER_APPLICATION", IntValue(DEFAULT_MAX_CORES_PER_APPLICATION))),
      ("EXECUTOR_CORES", EnvOr(env, "EXECUTOR_CORES", IntValue(DEFAULT_EXECUTOR_CORES))),
      ("MASTER_MEMORY", StrValue(memory)),
      ("MASTER_CORES", IntValue(cores))
    ] + PostgresValues(env);
    MasterDeploymentKeysDistinct();
    KeysFromList(r, MasterDeploymentKeys);
    r
  }

  function MasterServiceValues(username: string, env: Env, clusterId: string): (r: seq<(string, Value)>)
    requires RequiredPresent(env)
    ensures DistinctKeys(r)
  {
    [
      ("MASTER_NAME", StrValue(MasterName(username))),
      ("NAMESPACE", StrValue(env["KUBE_NAMESPACE"])),
      ("USERNAME", StrValue(username)),
      ("CLUSTER_ID", StrValue(clusterId)),
      ("MASTER_PORT", IntValue(DEFAULT_MASTER_PORT)),
      ("MASTER_WEBUI_PORT", IntValue(DEFAULT_MASTER_WEBUI_PORT))
    ]
  }

  function WorkerDeploymentValues(username: string, env: Env, clusterId: string,
                                  workerCount: int, workerCores: int, workerMemory: string): (r: seq<(string, Value)>)
    requires RequiredPresent(env)
    ensures DistinctKeys(r)
  {
    var r := [
      ("WORKER_NAME", StrValue(WorkerName(username))),
      ("NAMESPACE", StrValue(env["KUBE_NAMESPACE"])),
      ("USERNAME", StrValue(username)),
      ("CLUSTER_ID", StrValue(clusterId)),
      ("IMAGE", StrValue(env["SPARK_IMAGE"])),
      ("IMAGE_PULL_POLICY", StrValue(PullPolicy(env))),
      ("MASTER_NAME", StrValue(MasterName(username))),
      ("MASTER_PORT", IntValue(DEFAULT_MASTER_PORT)),
      ("WORKER_COUNT", IntValue(workerCount)),
      ("WORKER_CORES", IntValue(workerCores)),
      ("WORKER_MEMORY", StrValue(workerMemory)),
      ("WORKER_WEBUI_PORT", IntValue(DEFAULT_WORKER_WEBUI_PORT))
    ] + PostgresValues(env);
    WorkerDeploymentKeysDistinct();
    KeysFromList(r, WorkerDeploymentKeys);
    r
  }

  /**
   * The three maps carry one CLUSTER_ID, master and worker share the Postgres
   * block read from the environment, and the worker is told the master's name.
   */
  lemma TemplateValuesConsistent(username: string, env: Env, clusterId: string, args: ClusterArgs)
    requires RequiredPresent(env)
    ensures var m := MasterDeploymentValues(username, env, clusterId, args.masterCores, args.masterMemory);
            var s := MasterServiceValues(username, env, clusterId);
            var w := WorkerDeploymentValues(username, env, clusterId, args.workerCount, args.workerCores, args.workerMemory);
      && Lookup(m, "CLUSTER_ID") == Lookup(s, "CLUSTER_ID") == Lookup(w, "CLUSTER_ID") == Some(StrValue(clusterId))
      && (forall k :: k in ["POSTGRES_USER", "POSTGRES_PASSWORD", "POSTGRES_DB", "POSTGRES_URL"] ==>
            Lookup(m, k) == Lookup(w, k) == Some(StrValue(env[k])))
      && Lookup(w, "MASTER_NAME") == Lookup(m, "MASTER_NAME") == Some(StrValue(MasterName(username)))
      && Lookup(w, "WORKER_COUNT") == Some(IntValue(args.workerCount))
  {
    var m := MasterDeploymentValues(username, env, clusterId, args.masterCores, args.masterMemory);
    var s := MasterServiceValues(username, env, clusterId);
    var w := WorkerDeploymentValues(username, env, clusterId, args.workerCount, args.workerCores, args.workerMemory);
    LookupAt(m, 4); LookupAt(s, 3); LookupAt(w, 3);
    LookupAt(m, 0); LookupAt(w, 6); LookupAt(w, 8);
    LookupAt(m, 14); LookupAt(m, 15); LookupAt(m, 16); LookupAt(m, 17);
    LookupAt(w, 12); LookupAt(w, 13); LookupAt(w, 14); LookupAt(w, 15);
  }

  // ---------------------------------------------------------------------
  // Create-or-replace and the ordered application of resources
  // ---------------------------------------------------------------------

  /**
   * _create_or_replace_service / _create_or_replace_deployment: create; on 409
   * delete by name and create once more; any other failure propagates.
   */
  function CreateOrReplaceEffect(w: World, oracle: Oracle, key: Key, body: Manifest): (r: (World, Reply))
    ensures |w.log| < |r.0.log| <= |w.log| + 3 && r.0.log[..|w.log|] == w.log
    ensures r.0.log[|w.log|] == CreateCall(key, body)
    ensures forall i :: |w.log| <= i < |r.0.log| ==> r.0.log[i].key == key
    ensures forall k :: k != key ==> Agrees(r.0.store, w.store, k)
    ensures r.1.Done? ==> r.0.store == w.store[key := body]
    ensures var first := oracle(|w.log|, CreateCall(key, body), w.store);
      && (first != ApiError(CONFLICT) ==> r == (World(if first.Done? then w.store[key := body] else w.store, w.log + [CreateCall(key, body)]), first))
      && (first == ApiError(CONFLICT) ==> |r.0.log| >= |w.log| + 2 && r.0.log[|w.log| + 1] == DeleteCall(key))
      && (|r.0.log| == |w.log| + 3 ==> first == ApiError(CONFLICT) && r.0.log[|w.log| + 2] == CreateCall(key, body))
    ensures var first := oracle(|w.log|, CreateCall(key, body), w.store);
            var deleted := oracle(|w.log| + 1, DeleteCall(key), w.store);
            var afterDelete := World(w.store - {key}, w.log + [CreateCall(key, body), DeleteCall(key)]);
      first == ApiError(CONFLICT) ==>
        && (deleted.ApiError? ==> r == (World(w.store, afterDelete.log), deleted))
        && (deleted.Done? ==> r == Issue(afterDelete, oracle, CreateCall(key, body)))
  {
    var (w1, first) := Issue(w, oracle, CreateCall(key, body));
    if first.ApiError? && first.status == CONFLICT then
      assert w1 == World(w.store, w.log + [CreateCall(key, body)]);
      var (w2, deleted) := Issue(w1, oracle, DeleteCall(key));
      assert deleted == oracle(|w.log| + 1, DeleteCall(key), w.store);
      assert w1.log + [DeleteCall(key)] == w.log + [CreateCall(key, body), DeleteCall(key)];
      if deleted.ApiError? then (w2, deleted)
      else Issue(w2, oracle, CreateCall(key, body))
    else (w1, first)
  }

  /** A resource of the cluster: what to create under which kind and name. */
  datatype Resource = Resource(kind: Kind, name: string, body: Manifest)

  function KeyOf(namespace: string, r: Resource): Key {
    Key(namespace, r.kind, r.name)
  }

  function ResourceKeys(namespace: string, rs: seq<Resource>): set<Key> {
    set i | 0 <= i < |rs| :: KeyOf(namespace, rs[i])
  }

  predicate KeysDistinct(namespace: string, rs: seq<Resource>) {
    forall i, j :: 0 <= i < j < |rs| ==> KeyOf(namespace, rs[i]) != KeyOf(namespace, rs[j])
  }

  function Concat(traces: seq<seq<Call>>): seq<Call>
    decreases |traces|
  {
    if traces == [] then [] else traces[0] + Concat(traces[1..])
  }

  lemma ResourceKeysPrefix(namespace: string, rs: seq<Resource>, n: nat)
    requires 1 <= n <= |rs|
    ensures ResourceKeys(namespace, rs[..n]) == {KeyOf(namespace, rs[0])} + ResourceKeys(namespace, rs[1..][..n - 1])
  {
    var a, b := ResourceKeys(namespace, rs[..n]), {KeyOf(namespace, rs[0])} + ResourceKeys(namespace, rs[1..][..n - 1]);
    forall k | k in a ensures k in b {
      var i :| 0 <= i < n && KeyOf(namespace, rs[..n][i]) == k;
      if i > 0 { assert rs[1..][..n - 1][i - 1] == rs[i]; }
    }
    forall k | k in b ensures k in a {
      if k != KeyOf(namespace, rs[0]) {
        var i :| 0 <= i < n - 1 && KeyOf(namespace, rs[1..][..n - 1][i]) == k;
        assert rs[..n][i + 1] == rs[i + 1];
      } else {
        assert rs[..n][0] == rs[0];
      }
    }
  }

  /**
   * create_cluster's sequencing: each resource in turn, stopping at the first
   * failure. The result carries the calls issued for each attempted resource.
   */
  function ApplyInOrder(w: World, oracle: Oracle, namespace: string, rs: seq<Resource>): (r: (World, Reply, seq<seq<Call>>))
    ensures |r.2| <= |rs|
    ensures r.1.Done? ==> |r.2| == |rs|
    ensures r.1.ApiError? ==> |r.2| >= 1
    ensures r.0.log == w.log + Concat(r.2)
    decreases |rs|
  {
    if rs == [] then (w, Done, [])
    else
      var (w1, reply) := CreateOrReplaceEffect(w, oracle, KeyOf(namespace, rs[0]), rs[0].body);
      var trace := w1.log[|w.log|..];
      assert w1.log == w.log + trace;
      if reply.ApiError? then
        assert Concat([trace]) == trace;
        (w1, reply, [trace])
      else
        var (w2, reply2, traces) := ApplyInOrder(w1, oracle, namespace, rs[1..]);
        var all := [trace] + traces;
        assert all[1..] == traces;
        (w2, reply2, all)
  }

  /** The calls one create-or-replace adds to the log: one to three, the create first, all on its key. */
  lemma TraceOfOne(w: World, oracle: Oracle, key: Key, body: Manifest)
    ensures var trace := CreateOrReplaceEffect(w, oracle, key, body).0.log[|w.log|..];
      && 1 <= |trace| <= 3
      && trace[0] == CreateCall(key, body)
      && forall c :: c in trace ==> c.key == key
  {
    var log := CreateOrReplaceEffect(w, oracle, key, body).0.log;
    var trace := log[|w.log|..];
    forall c | c in trace ensures c.key == key {
      var j :| 0 <= j < |trace| && trace[j] == c;
      assert trace[j] == log[|w.log| + j];
    }
  }

  /** Each attempted resource's calls start with its create, number one to three, and target only its key. */
  lemma {:induction false} ApplyInOrderCalls(w: World, oracle: Oracle, namespace: string, rs: seq<Resource>)
    ensures var r := ApplyInOrder(w, oracle, namespace, rs);
      forall i :: 0 <= i < |r.2| ==>
        && 1 <= |r.2[i]| <= 3
        && r.2[i][0] == CreateCall(KeyOf(namespace, rs[i]), rs[i].body)
        && forall c :: c in r.2[i] ==> c.key == KeyOf(namespace, rs[i])
    decreases |rs|
  {
    if rs != [] {
      var key := KeyOf(namespace, rs[0]);
      var (w1, reply) := CreateOrReplaceEffect(w, oracle, key, rs[0].body);
      var trace := w1.log[|w.log|..];
      TraceOfOne(w, oracle, key, rs[0].body);
      var r := ApplyInOrder(w, oracle, namespace, rs);
      if reply.ApiError? {
        assert r.2 == [trace];
      } else {
        ApplyInOrderCalls(w1, oracle, namespace, rs[1..]);
        var traces := ApplyInOrder(w1, oracle, namespace, rs[1..]).2;
        assert r.2 == [trace] + traces;
        forall i | 1 <= i < |r.2| ensures r.2[i] == traces[i - 1] && rs[i] == rs[1..][i - 1] {
        }
      }
    }
  }

  /** A failed create-or-replace answers with the reply to its last call, made on the store it leaves. */
  lemma CreateOrReplaceFailure(w: World, oracle: Oracle, key: Key, body: Manifest)
    ensures var r := CreateOrReplaceEffect(w, oracle, key, body);
      r.1.ApiError? ==> r.1 == oracle(|r.0.log| - 1, r.0.log[|r.0.log| - 1], r.0.store)
  {
  }

  /** One step of ApplyInOrder: stop on the first error, otherwise go on with the rest from the new world. */
  lemma ApplyInOrderStep(w: World, oracle: Oracle, namespace: string, rs: seq<Resource>)
    requires rs != []
    ensures var (w1, reply) := CreateOrReplaceEffect(w, oracle, KeyOf(namespace, rs[0]), rs[0].body);
      var r := ApplyInOrder(w, oracle, namespace, rs);
      && (reply.ApiError? ==> r.0 == w1 && r.1 == reply)
      && (reply.Done? ==> r.0 == ApplyInOrder(w1, oracle, namespace, rs[1..]).0 && r.1 == ApplyInOrder(w1, oracle, namespace, rs[1..]).1)
  { }

  /** The error ApplyInOrder returns is the platform's reply to the last call made: the exception is re-raised unchanged. */
  lemma {:induction false} ApplyInOrderFailure(w: World, oracle: Oracle, namespace: string, rs: seq<Resource>)
    ensures var r := ApplyInOrder(w, oracle, namespace, rs);
      r.1.ApiError? ==> |r.0.log| > |w.log| && r.1 == oracle(|r.0.log| - 1, r.0.log[|r.0.log| - 1], r.0.store)
    decreases |rs|
  {
    if rs != [] {
      var key := KeyOf(namespace, rs[0]);
      var (w1, reply) := CreateOrReplaceEffect(w, oracle, key, rs[0].body);
      ApplyInOrderStep(w, oracle, namespace, rs);
      if reply.ApiError? {
        CreateOrReplaceFailure(w, oracle, key, rs[0].body);
      } else {
        ApplyInOrderFailure(w1, oracle, namespace, rs[1..]);
      }
    }
  }

  /** Keys of resources never attempted are untouched. */
  lemma {:induction false} ApplyInOrderUntouched(w: World, oracle: Oracle, namespace: string, rs: seq<Resource>)
    ensures var r := ApplyInOrder(w, oracle, namespace, rs);
      forall k :: k !in ResourceKeys(namespace, rs[..|r.2|]) ==> Agrees(r.0.store, w.store, k)
    decreases |rs|
  {
    if rs != [] {
      var (w1, reply) := CreateOrReplaceEffect(w, oracle, KeyOf(namespace, rs[0]), rs[0].body);
      if reply.ApiError? {
        assert rs[..1] == [rs[0]];
      } else {
        var rest := rs[1..];
        ApplyInOrderUntouched(w1, oracle, namespace, rest);
        var r1 := ApplyInOrder(w1, oracle, namespace, rest);
        assert var r2 := ApplyInOrder(w1, oracle, namespace, rest);
          forall k :: k !in ResourceKeys(namespace, rest[..|r2.2|]) ==> Agrees(r2.0.store, w1.store, k);
        var r := ApplyInOrder(w, oracle, namespace, rs);
        assert r.0 == r1.0 && |r.2| == |r1.2| + 1;
        ResourceKeysPrefix(namespace, rs, |r1.2| + 1);
        forall k | k !in ResourceKeys(namespace, rs[..|r.2|]) ensures Agrees(r.0.store, w.store, k) {
          assert k != KeyOf(namespace, rs[0]) && k !in ResourceKeys(namespace, rest[..|r1.2|]);
          assert Agrees(w1.store, w.store, k);
          assert Agrees(r1.0.store, w1.store, k);
        }
      }
    }
  }

  /**
   * Every resource whose step completed holds its manifest afterwards: the earlier
   * ones of a failed run stay applied (no rollback), all of them after success.
   */
  lemma {:induction false} AppliedResourcesPersist(w: World, oracle: Oracle, namespace: string, rs: seq<Resource>)
    requires KeysDistinct(namespace, rs)
    ensures var r := ApplyInOrder(w, oracle, namespace, rs);
      var completed := if r.1.Done? then |r.2| else |r.2| - 1;
      forall i :: 0 <= i < completed ==>
        KeyOf(namespace, rs[i]) in r.0.store && r.0.store[KeyOf(namespace, rs[i])] == rs[i].body
    decreases |rs|
  {
    if rs != [] {
      var (w1, reply) := CreateOrReplaceEffect(w, oracle, KeyOf(namespace, rs[0]), rs[0].body);
      if reply.Done? {
        var rest := rs[1..];
        assert KeysDistinct(namespace, rest) by {
          forall i, j | 0 <= i < j < |rest| ensures KeyOf(namespace, rest[i]) != KeyOf(namespace, rest[j]) {
            assert rest[i] == rs[i + 1] && rest[j] == rs[j + 1];
          }
        }
        AppliedResourcesPersist(w1, oracle, namespace, rest);
        ApplyInOrderUntouched(w1, oracle, namespace, rest);
        var (w2, reply2, traces) := ApplyInOrder(w1, oracle, namespace, rest);
        var k0 := KeyOf(namespace, rs[0]);
        forall i | 0 <= i < |traces| ensures KeyOf(namespace, rest[..|traces|][i]) != k0 {
          assert rest[..|traces|][i] == rs[i + 1];
        }
        assert Agrees(w2.store, w1.store, k0);
      }
    }
  }

  /** Calls of different resources never interleave: each trace targets only its own resource. */
  lemma AttemptedOnlyInOrder(w: World, oracle: Oracle, namespace: string, rs: seq<Resource>, j: nat)
    requires KeysDistinct(namespace, rs)
    requires j < |rs|
    ensures var r := ApplyInOrder(w, oracle, namespace, rs);
      j >= |r.2| ==> forall i :: |w.log| <= i < |r.0.log| ==> r.0.log[i].key != KeyOf(namespace, rs[j])
  {
    var r := ApplyInOrder(w, oracle, namespace, rs);
    ApplyInOrderCalls(w, oracle, namespace, rs);
    if j >= |r.2| {
      forall i | |w.log| <= i < |r.0.log| ensures r.0.log[i].key != KeyOf(namespace, rs[j]) {
        var t := ConcatIndex(r.2, i - |w.log|);
        assert r.0.log[i] in r.2[t];
      }
    }
  }

  /** An element of Concat(ts) lies in one of the ts. */
  lemma {:induction false} ConcatIndex(ts: seq<seq<Call>>, n: nat) returns (t: nat)
    requires n < |Concat(ts)|
    ensures t < |ts| && Concat(ts)[n] in ts[t]
    decreases |ts|
  {
    if n < |ts[0]| {
      t := 0;
    } else {
      var t' := ConcatIndex(ts[1..], n - |ts[0]|);
      t := t' + 1;
    }
  }

  /** Against a platform without injected faults, create-or-replace always succeeds. */
  lemma HonestCreateOrReplace(w: World, key: Key, body: Manifest)
    ensures var r := CreateOrReplaceEffect(w, HonestReply, key, body);
      && r.1 == Done
      && r.0.store == w.store[key := body]
      && r.0.log == w.log + (if key in w.store then [CreateCall(key, body), DeleteCall(key), CreateCall(key, body)]
                             else [CreateCall(key, body)])
  {
  }

  /** Applying the same resource twice leaves exactly that object under its name, and the second apply succeeds. */
  lemma HonestApplyTwice(w: World, key: Key, body: Manifest)
    ensures var r1 := CreateOrReplaceEffect(w, HonestReply, key, body);
            var r2 := CreateOrReplaceEffect(r1.0, HonestReply, key, body);
      && r2.1 == Done
      && r2.0.store == w.store[key := body]
      && r2.0.log == r1.0.log + [CreateCall(key, body), DeleteCall(key), CreateCall(key, body)]
  {
    HonestCreateOrReplace(w, key, body);
    var r1 := CreateOrReplaceEffect(w, HonestReply, key, body);
    HonestCreateOrReplace(r1.0, key, body);
    assert r1.0.store[key := body] == w.store[key := body];
  }

  // ---------------------------------------------------------------------
  // The manager
  // ---------------------------------------------------------------------

  /** create_cluster's arguments, memory already in Kubernetes quantity syntax. */
  datatype ClusterArgs = ClusterArgs(workerCount: int, workerCores: int, workerMemory: string,
                                     masterCores: int, masterMemory: string)

  datatype CreateResponse = CreateResponse(clusterId: string, masterUrl: string, masterUiUrl: string)

  /** The three resources in the order create_cluster applies them. */
  function ClusterResources(username: string, env: Env, clusterId: string, args: ClusterArgs): (rs: seq<Resource>)
    requires RequiredPresent(env)
    ensures |rs| == 3 && KeysDistinct(env["KUBE_NAMESPACE"], rs)
    ensures rs[0].kind == Deployment && rs[0].name == MasterName(username) && rs[0].body.templatePath == MASTER_DEPLOYMENT_TEMPLATE
    ensures rs[1].kind == Service && rs[1].name == MasterName(username) && rs[1].body.templatePath == MASTER_SERVICE_TEMPLATE
    ensures rs[2].kind == Deployment && rs[2].name == WorkerName(username) && rs[2].body.templatePath == WORKER_DEPLOYMENT_TEMPLATE
  {
    MasterWorkerDistinct(username, username);
    [
      Resource(Deployment, MasterName(username),
               Rendered(MASTER_DEPLOYMENT_TEMPLATE, MasterDeploymentValues(username, env, clusterId, args.masterCores, args.masterMemory))),
      Resource(Service, MasterName(username),
               Rendered(MASTER_SERVICE_TEMPLATE, MasterServiceValues(username, env, clusterId))),
      Resource(Deployment, WorkerName(username),
               Rendered(WORKER_DEPLOYMENT_TEMPLATE, WorkerDeploymentValues(username, env, clusterId, args.workerCount, args.workerCores, args.workerMemory)))
    ]
  }

  /** What create_cluster returns when every step succeeded, computed from names only. */
  function ClusterResponse(username: string, env: Env, clusterId: string): (r: CreateResponse)
    requires RequiredPresent(env)
    ensures r.clusterId == clusterId
    ensures r.masterUrl == "spark://" + MasterName(username) + "." + env["KUBE_NAMESPACE"] + ":7077"
    ensures r.masterUiUrl == "http://" + MasterName(username) + "." + env["KUBE_NAMESPACE"] + ":8090"
  {
    UrlsSpelledOut(MasterName(username), env["KUBE_NAMESPACE"]);
    CreateResponse(clusterId, MasterUrl(MasterName(username), env["KUBE_NAMESPACE"]),
                   MasterUiUrl(MasterName(username), env["KUBE_NAMESPACE"]))
  }

  /** Applies the resources in order and answers with `response`, or with the error the platform raised. */
  function ApplyAll<T>(w: World, oracle: Oracle, namespace: string, rs: seq<Resource>, response: T): (r: (World, Result<T, Exc>))
    ensures |w.log| <= |r.0.log| && r.0.log[..|w.log|] == w.log
    ensures r.1.Ok? ==> r.1.value == response
    ensures r.1.Err? ==> r.1.error.ApiException?
    ensures r.1.Err? ==>
      && |r.0.log| > |w.log|
      && oracle(|r.0.log| - 1, r.0.log[|r.0.log| - 1], r.0.store) == ApiError(r.1.error.status)
  {
    var applied := ApplyInOrder(w, oracle, namespace, rs);
    ApplyInOrderFailure(w, oracle, namespace, rs);
    (applied.0, if applied.1.Done? then Ok(response) else Err(ApiException(applied.1.status)))
  }

  /** The whole of create_cluster as a function of the platform state. */
  function CreateClusterEffect(w: World, oracle: Oracle, username: string, env: Env, clusterId: string, args: ClusterArgs): (r: (World, Result<CreateResponse, Exc>))
    requires RequiredPresent(env)
    ensures |w.log| <= |r.0.log| && r.0.log[..|w.log|] == w.log
    ensures r.1.Ok? ==> r.1.value == ClusterResponse(username, env, clusterId)
    ensures r.1.Err? ==> r.1.error.ApiException?
    ensures r.1.Err? ==>
      && |r.0.log| > |w.log|
      && oracle(|r.0.log| - 1, r.0.log[|r.0.log| - 1], r.0.store) == ApiError(r.1.error.status)
  {
    ApplyAll(w, oracle, env["KUBE_NAMESPACE"], ClusterResources(username, env, clusterId, args), ClusterResponse(username, env, clusterId))
  }

  /** On a platform without injected faults, create_cluster succeeds and leaves all three resources in place. */
  lemma HonestCreateCluster(w: World, username: string, env: Env, clusterId: string, args: ClusterArgs)
    requires RequiredPresent(env)
    ensures var r := CreateClusterEffect(w, HonestReply, username, env, clusterId, args);
            var rs := ClusterResources(username, env, clusterId, args);
      && r.1 == Ok(ClusterResponse(username, env, clusterId))
      && forall i :: 0 <= i < 3 ==>
           KeyOf(env["KUBE_NAMESPACE"], rs[i]) in r.0.store && r.0.store[KeyOf(env["KUBE_NAMESPACE"], rs[i])] == rs[i].body
  {
    var ns := env["KUBE_NAMESPACE"];
    var rs := ClusterResources(username, env, clusterId, args);
    HonestCreateOrReplace(w, KeyOf(ns, rs[0]), rs[0].body);
    var w1 := CreateOrReplaceEffect(w, HonestReply, KeyOf(ns, rs[0]), rs[0].body).0;
    HonestCreateOrReplace(w1, KeyOf(ns, rs[1]), rs[1].body);
    var w2 := CreateOrReplaceEffect(w1, HonestReply, KeyOf(ns, rs[1]), rs[1].body).0;
    HonestCreateOrReplace(w2, KeyOf(ns, rs[2]), rs[2].body);
    var w3 := CreateOrReplaceEffect(w2, HonestReply, KeyOf(ns, rs[2]), rs[2].body).0;
    assert rs[1..][1..][1..] == [];
    assert ApplyInOrder(w2, HonestReply, ns, rs[1..][1..]).1 == Done;
    assert ApplyInOrder(w1, HonestReply, ns, rs[1..]).1 == Done;
    assert ApplyInOrder(w, HonestReply, ns, rs).1 == Done;
    AppliedResourcesPersist(w, HonestReply, ns, rs);
  }

  class KubeSparkManager {
    const username: string
    const namespace: string
    const image: string
    const imagePullPolicy: string
    const clusterId: string
    const masterName: string
    const workerName: string
    /** The process environment, read again when the template values are built. */
    const env: Env
    /** Stands for core_api and apps_api. */
    const platform: Platform

    ghost predicate Valid() {
      && ValidEnvironment(env) && RequiredPresent(env)
      && namespace == env["KUBE_NAMESPACE"] && image == env["SPARK_IMAGE"]
      && imagePullPolicy == PullPolicy(env)
      && masterName == MasterName(username) && workerName == WorkerName(username)
    }

    static method ValidateEnvironment(env: Env) returns (r: Result<Env, string>)
      ensures r.Ok? <==> ValidEnvironment(env)
      ensures r.Ok? ==> r.value.Keys == RequiredNames && forall k :: k in r.value ==> k in env && r.value[k] == env[k]
      ensures r.Err? ==> r.error == MissingMessage(MissingVars(env))
    {
      var missingVars: seq<string> := [];
      var envValues: map<string, string> := map[];
      for i := 0 to |RequiredEnvVars|
        invariant missingVars == MissingOf(env, RequiredEnvVars[..i])
        invariant forall k :: k in envValues ==> k in RequiredNames && k in env && envValues[k] == env[k]
        invariant forall j :: 0 <= j < i && RequiredEnvVars[j].0 in env ==> RequiredEnvVars[j].0 in envValues
      {
        var name := RequiredEnvVars[i].0;
        if IsMissing(env, name) {
          missingVars := missingVars + [name + " (" + RequiredEnvVars[i].1 + ")"];
        }
        // An absent variable (None) is only stored when the call is about to raise.
        if name in env {
          envValues := envValues[name := env[name]];
        }
        assert RequiredEnvVars[..i + 1][..i] == RequiredEnvVars[..i];
      }
      assert RequiredEnvVars[..|RequiredEnvVars|] == RequiredEnvVars;
      MissingOfEmpty(env, RequiredEnvVars);
      if |missingVars| > 0 {
        return Err(MissingMessage(missingVars));
      }
      forall k | k in RequiredNames ensures k in envValues {
        var j :| 0 <= j < |RequiredEnvVars| && RequiredEnvVars[j].0 == k;
        assert !IsMissing(env, RequiredEnvVars[j].0);
      }
      return Ok(envValues);
    }

    /** __init__ once validate_environment has returned. */
    constructor (username: string, env: Env, uuidPrefix: string, platform: Platform)
      requires ValidEnvironment(env)
      ensures Valid()
      ensures this.username == username && this.env == env && this.platform == platform
      ensures clusterId == ClusterId(username, uuidPrefix)
    {
      ValidEnvironmentPresent(env);
      this.username := username;
      this.namespace := env["KUBE_NAMESPACE"];
      this.image := env["SPARK_IMAGE"];
      this.imagePullPolicy := PullPolicy(env);
      this.clusterId := ClusterId(username, uuidPrefix);
      this.masterName := MasterName(username);
      this.workerName := WorkerName(username);
      this.env := env;
      this.platform := platform;
    }

    /** __init__: validate the environment, then set the fields; a ValueError when it is incomplete. */
    static method New(username: string, env: Env, uuidPrefix: string, platform: Platform) returns (r: Result<KubeSparkManager, Exc>)
      ensures r.Ok? <==> ValidEnvironment(env)
      ensures r.Ok? ==> && r.value.Valid() && fresh(r.value)
                        && r.value.username == username && r.value.env == env && r.value.platform == platform
                        && r.value.clusterId == ClusterId(username, uuidPrefix)
      ensures r.Err? ==> r.error == ValueError(MissingMessage(MissingVars(env)))
    {
      var checked := ValidateEnvironment(env);
      if checked.Err? {
        return Err(ValueError(checked.error));
      }
      var m := new KubeSparkManager(username, env, uuidPrefix, platform);
      return Ok(m);
    }

    method CreateOrReplace(kind: Kind, name: string, body: Manifest) returns (reply: Reply)
      modifies platform
      ensures (platform.State(), reply) == CreateOrReplaceEffect(old(platform.State()), platform.oracle, Key(namespace, kind, name), body)
    {
      var key := Key(namespace, kind, name);
      reply := platform.Submit(CreateCall(key, body));
      if reply.ApiError? && reply.status == CONFLICT {
        reply := platform.Submit(DeleteCall(key));
        if reply.Done? {
          reply := platform.Submit(CreateCall(key, body));
        }
      }
    }

    method CreateMasterDeployment(cores: int, memory: string) returns (reply: Reply)
      requires Valid()
      modifies platform
      ensures (platform.State(), reply) == CreateOrReplaceEffect(old(platform.State()), platform.oracle,
        Key(namespace, Deployment, masterName),
        Rendered(MASTER_DEPLOYMENT_TEMPLATE, MasterDeploymentValues(username, env, clusterId, cores, memory)))
    {
      var values := MasterDeploymentValues(username, env, clusterId, cores, memory);
      reply := CreateOrReplace(Deployment, masterName, Rendered(MASTER_DEPLOYMENT_TEMPLATE, values));
    }

    method CreateMasterService() returns (reply: Reply)
      requires Valid()
      modifies platform
      ensures (platform.State(), reply) == CreateOrReplaceEffect(old(platform.State()), platform.oracle,
        Key(namespace, Service, masterName),
        Rendered(MASTER_SERVICE_TEMPLATE, MasterServiceValues(username, env, clusterId)))
    {
      var values := MasterServiceValues(username, env, clusterId);
      reply := CreateOrReplace(Service, masterName, Rendered(MASTER_SERVICE_TEMPLATE, values));
    }

    method CreateWorkerDeployment(workerCount: int, workerCores: int, workerMemory: string) returns (reply: Reply)
      requires Valid()
      modifies platform
      ensures (platform.State(), reply) == CreateOrReplaceEffect(old(platform.State()), platform.oracle,
        Key(namespace, Deployment, workerName),
        Rendered(WORKER_DEPLOYMENT_TEMPLATE, WorkerDeploymentValues(username, env, clusterId, workerCount, workerCores, workerMemory)))
    {
      var values := WorkerDeploymentValues(username, env, clusterId, workerCount, workerCores, workerMemory);
      reply := CreateOrReplace(Deployment, workerName, Rendered(WORKER_DEPLOYMENT_TEMPLATE, values));
    }

    method CreateCluster(workerCount: int, workerCores: int, workerMemory: string, masterCores: int, masterMemory: string)
      returns (r: Result<CreateResponse, Exc>)
      requires Valid()
      modifies platform
      ensures (platform.State(), r) == CreateClusterEffect(old(platform.State()), platform.oracle, username, env, clusterId,
        ClusterArgs(workerCount, workerCores, workerMemory, masterCores, masterMemory))
    {
      ghost var w0 := platform.State();
      ghost var rs := ClusterResources(username, env, clusterId, ClusterArgs(workerCount, workerCores, workerMemory, masterCores, masterMemory));
      var reply := CreateMasterDeployment(masterCores, masterMemory);
      if reply.ApiError? {
        return Err(ApiException(reply.status));
      }
      ghost var w1 := platform.State();
      reply := CreateMasterService();
      if reply.ApiError? {
        assert ApplyInOrder(w1, platform.oracle, namespace, rs[1..]).1 == reply;
        return Err(ApiException(reply.status));
      }
      ghost var w2 := platform.State();
      reply := CreateWorkerDeployment(workerCount, workerCores, workerMemory);
      if reply.ApiError? {
        assert ApplyInOrder(w2, platform.oracle, namespace, rs[1..][1..]).1 == reply;
        assert ApplyInOrder(w1, platform.oracle, namespace, rs[1..]).1 == reply;
        return Err(ApiException(reply.status));
      }
      assert rs[1..][1..][1..] == [];
      assert ApplyInOrder(w2, platform.oracle, namespace, rs[1..][1..]).0 == platform.State();
      r := Ok(CreateResponse(clusterId, MasterUrl(masterName, namespace), MasterUiUrl(masterName, namespace)));
    }
  }
}
