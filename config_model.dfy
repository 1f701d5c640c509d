/**
 * The agent's resolved configuration record, the decoded metadata document
 * it is computed from, the process flags, the errors of a refresh, and the
 * fixed values of config/config.go.
 */
module ConfigModel {
  import opened Common
  import GoText

  const GooGetRepoFilePath := "C:/ProgramData/GooGet/repos/google_osconfig_managed.repo"
  const ZypperRepoFilePath := "/etc/zypp/repos.d/google_osconfig_managed.repo"
  const YumRepoFilePath := "/etc/yum.repos.d/google_osconfig_managed.repo"
  const AptRepoFilePath := "/etc/apt/sources.list.d/google_osconfig_managed.list"

  const ProdEndpoint := "osconfig.googleapis.com:443"

  const OsInventoryEnabledDefault := false
  const GuestPoliciesEnabledDefault := false
  const TaskNotificationEnabledDefault := false
  const DebugEnabledDefault := false

  const ConfigDirWindows := "C:\\Program Files\\Google\\OSConfig"
  const ConfigDirLinux := "/etc/osconfig"
  const TaskStateFileWindows := ConfigDirWindows + "\\osconfig_task.state"
  const TaskStateFileLinux := ConfigDirLinux + "/osconfig_task.state"
  const RestartFileWindows := ConfigDirWindows + "\\osconfig_agent_restart_required"
  const RestartFileLinux := ConfigDirLinux + "/osconfig_agent_restart_required"

  /** Minutes between two polls of the service when metadata says nothing. */
  const OsConfigPollIntervalDefault := 10

  /**
   * The value MaxMetadataRetries returns (config/config.go:343-345).
   * SetConfig does not call it; its loop stops at its own third failure.
   */
  const MaxMetadataRetries := 3

  /** The agent's effective settings (Go's `config` struct). */
  datatype Config = Config(
    osInventoryEnabled: bool,
    guestPoliciesEnabled: bool,
    taskNotificationEnabled: bool,
    debugEnabled: bool,
    svcEndpoint: string,
    googetRepoFilePath: string,
    zypperRepoFilePath: string,
    yumRepoFilePath: string,
    aptRepoFilePath: string,
    numericProjectID: int,
    osConfigPollInterval: int,
    projectID: string,
    instanceZone: string,
    instanceName: string,
    instanceID: string)

  /** The zero value `config{}` the global store starts from. */
  const ZeroConfig := Config(false, false, false, false, "", "", "", "", "", 0, 0, "", "", "", "")

  /**
   * The attributes of one tier (project or instance), current and legacy
   * names side by side. An absent string attribute decodes as "", an absent
   * json.Number as None; a json.Number is kept as the text that was sent.
   */
  datatype Attributes = Attributes(
    inventoryEnabledOld: string,    // os-inventory-enabled
    inventoryEnabled: string,       // enable-os-inventory
    preReleaseFeaturesOld: string,  // os-config-enabled-prerelease-features
    preReleaseFeatures: string,     // osconfig-enabled-prerelease-features
    osConfigEnabled: string,        // enable-osconfig
    disabledFeatures: string,       // osconfig-disabled-features
    debugEnabledOld: string,        // enable-os-config-debug
    logLevel: string,               // osconfig-log-level
    osConfigEndpointOld: string,    // os-config-endpoint
    osConfigEndpoint: string,       // osconfig-endpoint
    pollIntervalOld: Option<string>,  // os-config-poll-interval
    pollInterval: Option<string>)     // osconfig-poll-interval

  const NoAttributes := Attributes("", "", "", "", "", "", "", "", "", "", None, None)

  datatype InstanceJson = InstanceJson(attributes: Attributes, zone: string, name: string, id: Option<string>)

  datatype ProjectJson = ProjectJson(attributes: Attributes, projectId: string, numericProjectId: int)

  /** The decoded metadata document. */
  datatype MetadataJson = MetadataJson(instance: InstanceJson, project: ProjectJson)

  /** The process flags `-endpoint` and `-debug`. */
  datatype Flags = Flags(endpoint: string, debug: bool)

  const DefaultFlags := Flags(ProdEndpoint, false)

  /** What a transport error from the metadata client wraps. */
  datatype NetCause = DnsError | OpError | OtherCause(msg: string)

  /** A transport error: a *url.Error around a cause, or any other error. */
  datatype TransportError = UrlError(cause: NetCause) | OtherTransport(msg: string)

  /** The errors a refresh or a token request returns. */
  datatype Error =
    | Message(text: string)            // an error made by fmt.Errorf from a fixed text
    | Transport(transport: TransportError)
    | Decode(reason: string)           // json.Unmarshal or jws.Decode failed
    | TokenFetch(cause: TransportError) // "error getting token from metadata: ..."

  const DnsErrorText := "DNS error when requesting metadata, check DNS settings and ensure metadata.google.internal is setup in your hosts file"
  const NetworkErrorText := "network error when requesting metadata, make sure your instance has an active network and can reach the metadata server"

  /**
   * formatMetadataError: a DNS failure and a network failure inside a URL
   * error become the operator-facing messages; every other error is
   * returned unchanged.
   */
  function FormatMetadataError(err: TransportError): (r: Error)
    ensures r == Message(DnsErrorText) <==> err == UrlError(DnsError)
    ensures r == Message(NetworkErrorText) <==> err == UrlError(OpError)
    ensures !(err == UrlError(DnsError) || err == UrlError(OpError)) ==> r == Transport(err)
  {
    match err
    case UrlError(DnsError) => Message(DnsErrorText)
    case UrlError(OpError) => Message(NetworkErrorText)
    case _ => Transport(err)
  }

  /** parseBool: strconv.ParseBool, with every rejected string read as false. */
  function ParseBool(s: string): (b: bool)
    ensures b <==> GoText.ParseBoolStrict(s) == Some(true)
    ensures GoText.ParseBoolStrict(s) == None ==> !b
  {
    match GoText.ParseBoolStrict(s)
    case Some(v) => v
    case None => false
  }

  /** The directory holding the agent's state on the given GOOS. */
  function ConfigDir(goos: string): string {
    if goos == "windows" then ConfigDirWindows else ConfigDirLinux
  }

  /** TaskStateFile: the task state file, inside the OS's config directory. */
  function TaskStateFile(goos: string): (p: string)
    ensures p == TaskStateFileWindows || p == TaskStateFileLinux
    ensures p == TaskStateFileWindows <==> goos == "windows"
    ensures |ConfigDir(goos)| < |p| && p[..|ConfigDir(goos)|] == ConfigDir(goos)
  {
    if goos == "windows" then TaskStateFileWindows else TaskStateFileLinux
  }

  /** RestartFile: the restart-required marker, inside the OS's config directory. */
  function RestartFile(goos: string): (p: string)
    ensures p == RestartFileWindows || p == RestartFileLinux
    ensures p == RestartFileWindows <==> goos == "windows"
    ensures |ConfigDir(goos)| < |p| && p[..|ConfigDir(goos)|] == ConfigDir(goos)
  {
    if goos == "windows" then RestartFileWindows else RestartFileLinux
  }
}
