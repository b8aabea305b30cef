/**
 * The create_cluster route of src/routes/clusters.py: the limit check for
 * callers without full admin rights, the conversion of byte counts into
 * whole-gigabyte Kubernetes quantities, and the hand-off to the manager.
 */
module Clusters {
  import opened Wrappers
  import opened Text
  import opened Exceptions
  import opened HttpBearer
  import opened KubeStore
  import opened SparkManager

  /** Pydantic's decimal gigabyte, the unit of `.to('GB')`. */
  const GB: nat := 1_000_000_000

  /** SparkClusterConfig, memory sizes as byte counts. */
  datatype SparkClusterConfig = SparkClusterConfig(
    workerCount: int, workerCores: int, workerMemory: nat, masterCores: int, masterMemory: nat)

  /** SparkClusterConfig() with its field defaults: 2 workers, 10 cores, "10G" of memory. */
  const DefaultConfig := SparkClusterConfig(2, 10, 10 * GB, 10, 10 * GB)

  /** ByteSize("10G").human_readable(): 10^10 bytes in binary units, one decimal. */
  const DefaultMemoryText := "9.3GiB"

  /** `exceeds_limits`: some field is strictly above the default. */
  predicate ExceedsLimits(c: SparkClusterConfig): (b: bool)
    ensures !b <==> c.workerCount <= 2 && c.workerCores <= 10 && c.workerMemory <= 10 * GB
                    && c.masterCores <= 10 && c.masterMemory <= 10 * GB
  {
    || c.workerCount > DefaultConfig.workerCount
    || c.workerCores > DefaultConfig.workerCores
    || c.workerMemory > DefaultConfig.workerMemory
    || c.masterCores > DefaultConfig.masterCores
    || c.masterMemory > DefaultConfig.masterMemory
  }

  const LimitMessage: string :=
    "Configuration exceeds default limits for non-admin users. "
    + "Max Workers: " + IntToString(DefaultConfig.workerCount) + ", "
    + "Max Worker Cores: " + IntToString(DefaultConfig.workerCores) + ", "
    + "Max Worker Memory: " + DefaultMemoryText + ", "
    + "Max Master Cores: " + IntToString(DefaultConfig.masterCores) + ", "
    + "Max Master Memory: " + DefaultMemoryText + "."

  /** The refusal spells out every default, memory in binary units. */
  lemma LimitMessageText()
    ensures LimitMessage == "Configuration exceeds default limits for non-admin users. "
      + "Max Workers: " + "2" + ", "
      + "Max Worker Cores: " + "10" + ", "
      + "Max Worker Memory: " + "9.3GiB" + ", "
      + "Max Master Cores: " + "10" + ", "
      + "Max Master Memory: " + "9.3GiB" + "."
  {
    assert NatToString(1) == "1" && NatToString(2) == "2" && NatToString(10) == "10";
    assert IntToString(DefaultConfig.workerCount) == "2";
    assert IntToString(DefaultConfig.workerCores) == "10";
    assert IntToString(DefaultConfig.masterCores) == "10";
  }

  /** math.ceil(bytes / 10^9): the least whole number of gigabytes holding the bytes. */
  function MemoryGigabytes(bytes: nat): (g: nat)
    ensures g * GB >= bytes
    ensures g == 0 || (g - 1) * GB < bytes
  {
    (bytes + GB - 1) / GB
  }

  /** f"{math.ceil(...)}G": decimal digits followed by G, the digits reading back as the gigabytes. */
  function MemoryQuantity(bytes: nat): (q: string)
    ensures |q| >= 2 && q[|q| - 1] == 'G'
    ensures AllDigits(q[..|q| - 1]) && ParseNat(q[..|q| - 1]) == MemoryGigabytes(bytes)
  {
    var g := MemoryGigabytes(bytes);
    ParseNatToString(g);
    assert (NatToString(g) + "G")[..|NatToString(g)|] == NatToString(g);
    NatToString(g) + "G"
  }

  /** Rounding is upward: the quantity never holds fewer bytes than requested. */
  lemma NeverRoundsDown(bytes: nat)
    ensures ParseNat(MemoryQuantity(bytes)[..|MemoryQuantity(bytes)| - 1]) * GB >= bytes
  {
  }

  /** A whole number of gigabytes is rendered exactly. */
  lemma WholeGigabytesExact(g: nat)
    ensures MemoryGigabytes(g * GB) == g
    ensures MemoryQuantity(g * GB) == NatToString(g) + "G"
  {
  }

  /** More bytes never give fewer gigabytes. */
  lemma GigabytesMonotone(a: nat, b: nat)
    requires a <= b
    ensures MemoryGigabytes(a) <= MemoryGigabytes(b)
  {
  }

  lemma ConversionExamples()
    ensures MemoryQuantity(10_400_000_000) == "11G"
    ensures MemoryQuantity(10 * GB) == "10G"
    ensures MemoryQuantity(0) == "0G"
    ensures MemoryQuantity(1) == "1G"
  {
    assert NatToString(1) == "1" && NatToString(11) == "11";
    assert NatToString(0) == "0" && NatToString(10) == "10";
    WholeGigabytesExact(10);
  }

  /**
   * The limit check and the argument conversion: a ConfigurationLimitExceededError
   * for a caller below full admin whose request exceeds a default, otherwise the
   * manager's arguments.
   */
  function Admit(perm: AdminPermission, c: SparkClusterConfig): (r: Result<ClusterArgs, Exc>)
    ensures r.Err? <==> perm != FullAdmin && ExceedsLimits(c)
    ensures r.Err? ==> r.error == AppError(ConfigurationLimitExceededError, LimitMessage)
    ensures r.Ok? ==> && r.value.workerCount == c.workerCount && r.value.workerCores == c.workerCores
                      && r.value.masterCores == c.masterCores
                      && r.value.workerMemory == MemoryQuantity(c.workerMemory)
                      && r.value.masterMemory == MemoryQuantity(c.masterMemory)
  {
    if perm != FullAdmin && ExceedsLimits(c) then
      Err(AppError(ConfigurationLimitExceededError, LimitMessage))
    else
      Ok(ClusterArgs(c.workerCount, c.workerCores, MemoryQuantity(c.workerMemory),
                     c.masterCores, MemoryQuantity(c.masterMemory)))
  }

  /** Full admins are never refused by the limit check. */
  lemma AdminsSkipLimits(c: SparkClusterConfig)
    ensures Admit(FullAdmin, c).Ok?
  {
  }

  /** A request equal to the defaults is admitted: the comparison is strict. */
  lemma DefaultsAdmitted(perm: AdminPermission)
    ensures Admit(perm, DefaultConfig).Ok?
    ensures Admit(perm, DefaultConfig).value == ClusterArgs(2, 10, "10G", 10, "10G")
  {
    ConversionExamples();
  }

  /** One field a unit above its default is enough to be refused. */
  lemma OneFieldOverRefused(perm: AdminPermission)
    requires perm != FullAdmin
    ensures Admit(perm, DefaultConfig.(workerCount := 3)).Err?
    ensures Admit(perm, DefaultConfig.(workerCores := 11)).Err?
    ensures Admit(perm, DefaultConfig.(workerMemory := 10 * GB + 1)).Err?
    ensures Admit(perm, DefaultConfig.(masterCores := 11)).Err?
    ensures Admit(perm, DefaultConfig.(masterMemory := 10 * GB + 1)).Err?
  {
  }

  /**
   * What an admitted request below full admin hands the manager stays within the
   * defaults, the memory quantities included: at most 2 workers, 10 cores, "10G".
   */
  lemma AdmittedWithinDefaults(perm: AdminPermission, c: SparkClusterConfig)
    requires perm != FullAdmin && Admit(perm, c).Ok?
    ensures var a := Admit(perm, c).value;
      && a.workerCount <= 2 && a.workerCores <= 10 && a.masterCores <= 10
      && ParseNat(a.workerMemory[..|a.workerMemory| - 1]) <= 10
      && ParseNat(a.masterMemory[..|a.masterMemory| - 1]) <= 10
  {
    GigabytesMonotone(c.workerMemory, 10 * GB);
    GigabytesMonotone(c.masterMemory, 10 * GB);
    WholeGigabytesExact(10);
  }

  /**
   * POST /clusters: build the manager (a ValueError when the environment is
   * incomplete), apply the limit check, then create the cluster. The platform
   * is touched only in the last step.
   */
  method CreateCluster(config: SparkClusterConfig, user: KBaseUser, env: Env, uuidPrefix: string, platform: Platform)
    returns (r: Result<CreateResponse, Exc>)
    modifies platform
    ensures !ValidEnvironment(env) ==>
      r == Err(ValueError(MissingMessage(MissingVars(env)))) && platform.State() == old(platform.State())
    ensures ValidEnvironment(env) && Admit(user.adminPerm, config).Err? ==>
      r == Err(AppError(ConfigurationLimitExceededError, LimitMessage)) && platform.State() == old(platform.State())
    ensures ValidEnvironment(env) && Admit(user.adminPerm, config).Ok? ==>
      RequiredPresent(env) &&
      (platform.State(), r) == CreateClusterEffect(old(platform.State()), platform.oracle, user.user, env,
                                                   ClusterId(user.user, uuidPrefix), Admit(user.adminPerm, config).value)
  {
    var made := KubeSparkManager.New(user.user, env, uuidPrefix, platform);
    if made.Err? {
      return Err(made.error);
    }
    var manager := made.value;
    var admitted := Admit(user.adminPerm, config);
    if admitted.Err? {
      return Err(admitted.error);
    }
    var args := admitted.value;
    r := manager.CreateCluster(args.workerCount, args.workerCores, args.workerMemory, args.masterCores, args.masterMemory);
  }
}
