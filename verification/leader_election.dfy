/** Configuration checking, defaulting and construction order of the
    leader-election wrapper (pkg/leaderelection/election.go).

    The lease state machine itself is client-go's and is not part of this
    model; every call into client-go (building a rest config, a clientset, a
    resource lock, the elector) is represented by the outcome it reports, and
    the host name and the UUID are inputs. */
module LeaderElection {
  import opened Common

  /** Go's `time.Duration`: a signed 64-bit count of nanoseconds. */
  type Duration = Int64

  const Second: Duration := 1_000_000_000

  const DefaultLeaseDuration: Duration := 15 * Second
  const DefaultRenewDeadline: Duration := 10 * Second
  const DefaultRetryPeriod: Duration := 2 * Second

  /** Default lease lock name and default component (group) name. */
  const DefaultName: string := "leader-election"

  /** Separator between host name and UUID in a generated member ID. */
  const IdSeparator: string := "_"

  /** User agent suffix added to the rest config before building clients. */
  const UserAgent: string := "leader-election"

  /** client-go's name for the Lease-based resource lock kind. */
  const LeasesLock: string := "leases"

  /** Identity of a user-supplied Go func value (nil is `None`). */
  type FuncRef = nat

  datatype Callbacks = Callbacks(
    onStartedLeading: Option<FuncRef>,
    onStoppedLeading: Option<FuncRef>,
    onNewLeader: Option<FuncRef>)

  datatype Config = Config(
    memberId: string,
    leaseDuration: Duration,
    renewDeadline: Duration,
    retryPeriod: Duration,
    componentName: string,
    leaseLockName: string,
    leaseLockNamespace: string,
    kubeMaster: string,
    kubeConfig: string,
    callbacks: Callbacks)

  /** What the process environment answers: `os.Hostname()` (which may fail
      with a message) and the next `uuid.NewUUID()`. */
  datatype Host = Host(hostname: Result<string, string>, uuid: string)

  /** The errors the wrapper returns, with their Go messages below. */
  datatype ElectionError =
    | MissingLockNamespace
    | HostnameUnavailable(cause: string)
    | Upstream(message: string)      // a client-go error returned as is
    | LockFailed(cause: string)
    | ElectorFailed(cause: string)
  {
    function Message(): string {
      match this
      case MissingLockNamespace => "lease lock namespace must not be nil for leader election"
      case HostnameUnavailable(c) => "unable to get hostname: " + c
      case Upstream(m) => m
      case LockFailed(c) => "couldn't create resource lock: " + c
      case ElectorFailed(c) => "couldn't create leader elector: " + c
    }
  }

  /** `checkAndSetConfig` updates the caller's config in place and returns an
      error: `config` is the caller's config after the call. */
  datatype Checked = Checked(config: Config, err: Outcome<ElectionError>)

  /** Every field that has a default holds a non-empty / non-zero value. */
  predicate Complete(c: Config) {
    && c.memberId != ""
    && c.leaseLockName != ""
    && c.componentName != ""
    && c.leaseLockNamespace != ""
    && c.leaseDuration != 0
    && c.renewDeadline != 0
    && c.retryPeriod != 0
  }

  /** `after` keeps every value that was set in `before`, and the fields
      without a default are never touched. */
  predicate KeepsSetFields(before: Config, after: Config) {
    && (before.memberId != "" ==> after.memberId == before.memberId)
    && (before.leaseLockName != "" ==> after.leaseLockName == before.leaseLockName)
    && (before.componentName != "" ==> after.componentName == before.componentName)
    && (before.leaseDuration != 0 ==> after.leaseDuration == before.leaseDuration)
    && (before.renewDeadline != 0 ==> after.renewDeadline == before.renewDeadline)
    && (before.retryPeriod != 0 ==> after.retryPeriod == before.retryPeriod)
    && after.leaseLockNamespace == before.leaseLockNamespace
    && after.kubeMaster == before.kubeMaster
    && after.kubeConfig == before.kubeConfig
    && after.callbacks == before.callbacks
  }

  /** `after` holds the fixed default for every field unset in `before`; an
      unset member ID becomes `<hostname>_<uuid>`. */
  predicate FillsDefaults(before: Config, after: Config, hostname: string, uuid: string) {
    && (before.memberId == "" ==> after.memberId == hostname + IdSeparator + uuid)
    && (before.leaseLockName == "" ==> after.leaseLockName == DefaultName)
    && (before.componentName == "" ==> after.componentName == DefaultName)
    && (before.leaseDuration == 0 ==> after.leaseDuration == DefaultLeaseDuration)
    && (before.renewDeadline == 0 ==> after.renewDeadline == DefaultRenewDeadline)
    && (before.retryPeriod == 0 ==> after.retryPeriod == DefaultRetryPeriod)
  }

  /** The order of the default durations: retry period, then renew
      deadline, then lease duration. */
  predicate TimingOrdered(c: Config) {
    0 < c.retryPeriod < c.renewDeadline < c.leaseDuration
  }

  function HostnameOr(h: Host): string {
    if h.hostname.Success? then h.hostname.value else ""
  }

  /** `checkAndSetConfig`: reject a missing lock namespace, then fill in the
      member ID (looking up the host name only when it is needed) and the
      remaining defaults. */
  function CheckAndSetConfig(cfg: Config, host: Host): (c: Checked)
    // an error leaves the caller's config exactly as it was
    ensures c.err.Fail? ==> c.config == cfg
    ensures cfg.leaseLockNamespace == "" ==> c.err == Fail(MissingLockNamespace)
    ensures cfg.leaseLockNamespace != "" && cfg.memberId == "" && host.hostname.Failure? ==>
              c.err == Fail(HostnameUnavailable(host.hostname.error))
    ensures c.err.Pass? <==>
              cfg.leaseLockNamespace != "" && (cfg.memberId != "" || host.hostname.Success?)
    ensures c.err.Pass? ==>
              && Complete(c.config)
              && KeepsSetFields(cfg, c.config)
              && FillsDefaults(cfg, c.config, HostnameOr(host), host.uuid)
    // when no duration is given, the defaults are in the order the elector needs
    ensures c.err.Pass? && cfg.leaseDuration == 0 && cfg.renewDeadline == 0 && cfg.retryPeriod == 0 ==>
              TimingOrdered(c.config)
  {
    if cfg.leaseLockNamespace == "" then
      Checked(cfg, Fail(MissingLockNamespace))
    else if cfg.memberId == "" && host.hostname.Failure? then
      Checked(cfg, Fail(HostnameUnavailable(host.hostname.error)))
    else
      var id := if cfg.memberId == "" then host.hostname.value + IdSeparator + host.uuid else cfg.memberId;
      var lockName := if cfg.leaseLockName == "" then DefaultName else cfg.leaseLockName;
      var component := if cfg.componentName == "" then DefaultName else cfg.componentName;
      var lease := if cfg.leaseDuration == 0 then DefaultLeaseDuration else cfg.leaseDuration;
      var renew := if cfg.renewDeadline == 0 then DefaultRenewDeadline else cfg.renewDeadline;
      var retry := if cfg.retryPeriod == 0 then DefaultRetryPeriod else cfg.retryPeriod;
      Checked(cfg.(memberId := id, leaseLockName := lockName, componentName := component,
                   leaseDuration := lease, renewDeadline := renew, retryPeriod := retry),
              Pass)
  }

  /** The defaulted config is determined by the two field-wise rules: any
      config that keeps the set fields and fills the unset ones with the
      defaults is the one `CheckAndSetConfig` produces. */
  lemma CheckAndSetConfigUnique(cfg: Config, host: Host, other: Config)
    requires CheckAndSetConfig(cfg, host).err.Pass?
    requires KeepsSetFields(cfg, other)
    requires FillsDefaults(cfg, other, HostnameOr(host), host.uuid)
    ensures other == CheckAndSetConfig(cfg, host).config
  {
  }

  /** Defaulting twice changes nothing, and the second pass does not even
      consult the host: the member ID is already set. */
  lemma CheckAndSetConfigIdempotent(cfg: Config, host: Host, again: Host)
    requires CheckAndSetConfig(cfg, host).err.Pass?
    ensures CheckAndSetConfig(CheckAndSetConfig(cfg, host).config, again)
            == Checked(CheckAndSetConfig(cfg, host).config, Pass)
  {
  }

  /** A generated member ID is never empty, even when the host name and the
      UUID are, and it starts with the host name. */
  lemma GeneratedMemberId(cfg: Config, host: Host)
    requires cfg.leaseLockNamespace != "" && cfg.memberId == "" && host.hostname.Success?
    ensures var id := CheckAndSetConfig(cfg, host).config.memberId;
            && |id| == |host.hostname.value| + 1 + |host.uuid|
            && id[..|host.hostname.value|] == host.hostname.value
            && id[|host.hostname.value|] == '_'
            && id[|host.hostname.value| + 1..] == host.uuid
  {
  }

  // ---------------------------------------------------------------------
  // buildConfig

  /** Where the rest config comes from. */
  datatype ConfigSource = FromFlags(master: string, kubeconfig: string) | InCluster

  datatype RestConfig = RestConfig(source: ConfigSource)

  /** The outcomes of client-go's two loaders in this environment:
      `clientcmd.BuildConfigFromFlags` and `rest.InClusterConfig`. */
  datatype RestEnv = RestEnv(fromFlags: Outcome<string>, inCluster: Outcome<string>)

  /** `buildConfig`: the explicit master/kubeconfig path when either is
      given, the in-cluster path otherwise. */
  function SelectSource(master: string, kubeconfig: string): (s: ConfigSource)
    ensures s.FromFlags? <==> master != "" || kubeconfig != ""
    ensures s.FromFlags? ==> s.master == master && s.kubeconfig == kubeconfig
  {
    if master != "" || kubeconfig != "" then FromFlags(master, kubeconfig) else InCluster
  }

  function LoaderOutcome(s: ConfigSource, env: RestEnv): Outcome<string> {
    if s.FromFlags? then env.fromFlags else env.inCluster
  }

  function BuildConfig(master: string, kubeconfig: string, env: RestEnv): (r: Result<RestConfig, ElectionError>)
    ensures r.Success? ==> r.value.source == SelectSource(master, kubeconfig)
    // the loader's error is returned unwrapped, and only the selected loader matters
    ensures (master != "" || kubeconfig != "") ==>
              (r.Failure? <==> env.fromFlags.Fail?) &&
              (r.Failure? ==> r.error == Upstream(env.fromFlags.error))
    ensures (master == "" && kubeconfig == "") ==>
              (r.Failure? <==> env.inCluster.Fail?) &&
              (r.Failure? ==> r.error == Upstream(env.inCluster.error))
  {
    var s := SelectSource(master, kubeconfig);
    match LoaderOutcome(s, env)
    case Fail(m) => Failure(Upstream(m))
    case Pass => Success(RestConfig(s))
  }

  // ---------------------------------------------------------------------
  // NewElectionWithKubeConfig / NewElection

  /** What the Lease lock is created with. */
  datatype LockSpec = LockSpec(kind: string, namespace: string, name: string, identity: string, eventComponent: string)

  /** What client-go's `LeaderElectionConfig` is filled with. */
  datatype ElectorSpec = ElectorSpec(
    lock: LockSpec,
    leaseDuration: Duration,
    renewDeadline: Duration,
    retryPeriod: Duration,
    callbacks: Callbacks,
    releaseOnCancel: bool)

  /** The external construction steps, in the order they are attempted. */
  datatype Step =
    | LoadRestConfig(source: ConfigSource)
    | NewClientset(rest: RestConfig, userAgent: string)
    | StartEventSink(namespace: string)
    | NewEventRecorder(component: string)
    | NewLeaseLock(lock: LockSpec)
    | NewElector(spec: ElectorSpec)

  /** The outcomes client-go reports for the three fallible construction
      calls (clientset, resource lock, elector). */
  datatype ClientEnv = ClientEnv(clientset: Outcome<string>, lock: Outcome<string>, elector: Outcome<string>)

  datatype Election = Election(config: Config, elector: ElectorSpec)

  /** `config` is the caller's config afterwards (it is passed by pointer),
      `steps` the external calls attempted, `result` what is returned. */
  datatype Construction = Construction(config: Config, steps: seq<Step>, result: Result<Election, ElectionError>)

  function LockOf(c: Config): LockSpec {
    LockSpec(LeasesLock, c.leaseLockNamespace, c.leaseLockName, c.memberId, c.componentName)
  }

  function ElectorOf(c: Config): ElectorSpec {
    ElectorSpec(LockOf(c), c.leaseDuration, c.renewDeadline, c.retryPeriod, c.callbacks, true)
  }

  /** The full construction plan for an already defaulted config. */
  function Plan(c: Config, rest: RestConfig): seq<Step> {
    [ NewClientset(rest, UserAgent),
      StartEventSink(c.leaseLockNamespace),
      NewEventRecorder(c.componentName),
      NewLeaseLock(LockOf(c)),
      NewElector(ElectorOf(c)) ]
  }

  /** Builds clients, lock and elector for a defaulted config. */
  function Build(c: Config, rest: RestConfig, client: ClientEnv): (b: Construction)
    ensures b.config == c
    ensures |b.steps| > 0 && b.steps <= Plan(c, rest)
    ensures b.result.Success? <==> client.clientset.Pass? && client.lock.Pass? && client.elector.Pass?
    ensures b.result.Success? ==> b.steps == Plan(c, rest) && b.result.value == Election(c, ElectorOf(c))
    // a clientset error stops construction at once and is returned as is
    ensures client.clientset.Fail? ==>
              b.steps == Plan(c, rest)[..1] && b.result == Failure(Upstream(client.clientset.error))
    // a lock error comes after the event sink and recorder, and the elector is never built
    ensures client.clientset.Pass? && client.lock.Fail? ==>
              && b.steps == Plan(c, rest)[..4]
              && b.result == Failure(LockFailed(client.lock.error))
              && NewElector(ElectorOf(c)) !in b.steps
    ensures client.clientset.Pass? && client.lock.Pass? && client.elector.Fail? ==>
              b.steps == Plan(c, rest) && b.result == Failure(ElectorFailed(client.elector.error))
  {
    var plan := Plan(c, rest);
    if client.clientset.Fail? then
      Construction(c, plan[..1], Failure(Upstream(client.clientset.error)))
    else if client.lock.Fail? then
      Construction(c, plan[..4], Failure(LockFailed(client.lock.error)))
    else if client.elector.Fail? then
      Construction(c, plan, Failure(ElectorFailed(client.elector.error)))
    else
      Construction(c, plan, Success(Election(c, ElectorOf(c))))
  }

  /** `NewElectionWithKubeConfig`: the config is checked and defaulted before
      any client, lock or elector is built. */
  function NewElectionWithKubeConfig(cfg: Config, rest: RestConfig, host: Host, client: ClientEnv): (e: Construction)
    ensures e.config == CheckAndSetConfig(cfg, host).config
    // a configuration error short-circuits: nothing external is attempted
    ensures CheckAndSetConfig(cfg, host).err.Fail? ==>
              e.steps == [] && e.result == Failure(CheckAndSetConfig(cfg, host).err.error)
    ensures |e.steps| > 0 ==> CheckAndSetConfig(cfg, host).err.Pass?
    ensures e.steps <= Plan(e.config, rest)
    // once the check passes, construction is exactly the build of the defaulted config
    ensures CheckAndSetConfig(cfg, host).err.Pass? ==> e == Build(CheckAndSetConfig(cfg, host).config, rest, client)
    ensures e.result.Success? ==> e.result.value.config == e.config
    ensures e.result.Success? ==>
              && Complete(e.result.value.config)
              && KeepsSetFields(cfg, e.result.value.config)
              && e.result.value.elector.lock.identity == e.result.value.config.memberId
              && e.result.value.elector.releaseOnCancel
  {
    var checked := CheckAndSetConfig(cfg, host);
    if checked.err.Fail? then
      Construction(checked.config, [], Failure(checked.err.error))
    else
      Build(checked.config, rest, client)
  }

  /** The error texts `NewElectionWithKubeConfig` returns, one per failing
      step: the two fixed texts of the check, a clientset error unchanged, and
      the lock and elector errors behind their prefixes. */
  lemma NewElectionWithKubeConfigMessages(cfg: Config, rest: RestConfig, host: Host, client: ClientEnv)
    ensures var e := NewElectionWithKubeConfig(cfg, rest, host, client);
            var checked := CheckAndSetConfig(cfg, host).err.Pass?;
            && (cfg.leaseLockNamespace == "" ==>
                  e.result.Failure? && e.result.error.Message() == "lease lock namespace must not be nil for leader election")
            && (cfg.leaseLockNamespace != "" && cfg.memberId == "" && host.hostname.Failure? ==>
                  e.result.Failure? && e.result.error.Message() == "unable to get hostname: " + host.hostname.error)
            && (checked && client.clientset.Fail? ==>
                  e.result.Failure? && e.result.error.Message() == client.clientset.error)
            && (checked && client.clientset.Pass? && client.lock.Fail? ==>
                  e.result.Failure? && e.result.error.Message() == "couldn't create resource lock: " + client.lock.error)
            && (checked && client.clientset.Pass? && client.lock.Pass? && client.elector.Fail? ==>
                  e.result.Failure? && e.result.error.Message() == "couldn't create leader elector: " + client.elector.error)
  {
  }

  /** `NewElection`: the rest config is loaded first, then the construction
      above runs with it. */
  function NewElection(cfg: Config, restEnv: RestEnv, host: Host, client: ClientEnv): (e: Construction)
    ensures |e.steps| > 0 && e.steps[0] == LoadRestConfig(SelectSource(cfg.kubeMaster, cfg.kubeConfig))
    ensures BuildConfig(cfg.kubeMaster, cfg.kubeConfig, restEnv).Failure? ==>
              e == Construction(cfg, e.steps[..1], Failure(BuildConfig(cfg.kubeMaster, cfg.kubeConfig, restEnv).error))
    ensures BuildConfig(cfg.kubeMaster, cfg.kubeConfig, restEnv).Success? ==>
              var rest := BuildConfig(cfg.kubeMaster, cfg.kubeConfig, restEnv).value;
              e == NewElectionWithKubeConfig(cfg, rest, host, client).(steps := e.steps)
              && e.steps[1..] == NewElectionWithKubeConfig(cfg, rest, host, client).steps
  {
    var load := LoadRestConfig(SelectSource(cfg.kubeMaster, cfg.kubeConfig));
    match BuildConfig(cfg.kubeMaster, cfg.kubeConfig, restEnv)
    case Failure(err) => Construction(cfg, [load], Failure(err))
    case Success(rest) =>
      var e := NewElectionWithKubeConfig(cfg, rest, host, client);
      e.(steps := [load] + e.steps)
  }

  /** Because the rest config is loaded before the config is checked, a
      loader failure is what `NewElection` reports even for a config that
      would also be rejected, and the caller's config is then untouched. */
  lemma RestConfigErrorPrecedesCheck(cfg: Config, restEnv: RestEnv, host: Host, client: ClientEnv)
    requires BuildConfig(cfg.kubeMaster, cfg.kubeConfig, restEnv).Failure?
    ensures NewElection(cfg, restEnv, host, client).result.Failure?
    ensures NewElection(cfg, restEnv, host, client).result.error.Upstream?
    ensures NewElection(cfg, restEnv, host, client).config == cfg
    ensures |NewElection(cfg, restEnv, host, client).steps| == 1
  {
  }

  /** A successful election is built with the defaulted config: the lock
      carries the lock namespace, lock name, member ID and component name
      that the config ends up with, and the elector its three durations and
      the caller's callbacks. */
  lemma ElectionUsesDefaultedConfig(cfg: Config, restEnv: RestEnv, host: Host, client: ClientEnv)
    requires NewElection(cfg, restEnv, host, client).result.Success?
    ensures var el := NewElection(cfg, restEnv, host, client).result.value;
            var c := CheckAndSetConfig(cfg, host).config;
            && el.config == c
            && el.elector == ElectorSpec(LockSpec(LeasesLock, c.leaseLockNamespace, c.leaseLockName, c.memberId, c.componentName),
                                         c.leaseDuration, c.renewDeadline, c.retryPeriod, cfg.callbacks, true)
            && |NewElection(cfg, restEnv, host, client).steps| == 6
  {
  }
}
