/**
 * createConfigFromMetadata and parseFeatures: the merge of defaults, the
 * previous configuration, the project tier, the instance tier and the
 * process flags into a new configuration.
 *
 * The methods follow the code step by step. Beside them is a reference
 * definition in the form of precedence lists: each setting is a list of
 * optional writes, and the last present write wins (LastWrite), or a list
 * of candidates, and the first non-empty one wins (FirstNonEmpty). The
 * methods are proved to compute the reference, and the lemmas at the end
 * state the precedence rules on it.
 */
module Merge {
  import opened Common
  import opened ConfigModel
  import GoText

  // ---------------------------------------------------------------------
  // Feature tokens
  // ---------------------------------------------------------------------

  datatype Feature = TaskNotification | GuestPolicies | OsInventory

  /** A feature token after trimming and lower-casing. */
  function NormalizeToken(t: string): string {
    GoText.ToLower(GoText.TrimSpace(t))
  }

  /** The recognised tokens; "ospatch" and "ospackage" are the legacy names. */
  const FeatureTokens: seq<(string, Feature)> := [
    ("tasks", TaskNotification), ("ospatch", TaskNotification),
    ("guestpolicies", GuestPolicies), ("ospackage", GuestPolicies),
    ("osinventory", OsInventory)]

  function Lookup(table: seq<(string, Feature)>, t: string): Option<Feature> {
    if |table| == 0 then None
    else if table[0].0 == t then Some(table[0].1)
    else Lookup(table[1..], t)
  }

  /** The feature a normalized token stands for. */
  function TokenFeature(t: string): Option<Feature> {
    Lookup(FeatureTokens, t)
  }

  /** The feature a raw token of a feature list stands for. */
  function TokenFeatureOf(raw: string): Option<Feature> {
    TokenFeature(NormalizeToken(raw))
  }

  /** Some token of `tokens` names `f`. */
  predicate NamedIn(tokens: seq<string>, f: Feature)
    decreases |tokens|
  {
    |tokens| > 0 && (NamedIn(tokens[..|tokens| - 1], f) || TokenFeatureOf(tokens[|tokens| - 1]) == Some(f))
  }

  /** The comma-separated list `features` names `f`. */
  predicate Names(features: string, f: Feature) {
    NamedIn(GoText.Split(features, ','), f)
  }

  /**
   * The three feature flags of a configuration. parseFeatures and the
   * feature attributes of a tier touch only these fields.
   */
  datatype FeatureFlags = FeatureFlags(taskNotification: bool, guestPolicies: bool, osInventory: bool)

  function FeaturesOf(c: Config): FeatureFlags {
    FeatureFlags(c.taskNotificationEnabled, c.guestPoliciesEnabled, c.osInventoryEnabled)
  }

  function Flag(ff: FeatureFlags, f: Feature): bool {
    match f
    case TaskNotification => ff.taskNotification
    case GuestPolicies => ff.guestPolicies
    case OsInventory => ff.osInventory
  }

  /** `ff` with feature `f` set to `v`. */
  function SetFlag(ff: FeatureFlags, f: Feature, v: bool): (r: FeatureFlags)
    ensures Flag(r, f) == v
    ensures forall g :: g != f ==> Flag(r, g) == Flag(ff, g)
  {
    match f
    case TaskNotification => ff.(taskNotification := v)
    case GuestPolicies => ff.(guestPolicies := v)
    case OsInventory => ff.(osInventory := v)
  }

  /** NamedIn means what it says: some token of the list names the feature. */
  lemma {:induction false} NamedInExists(tokens: seq<string>, f: Feature)
    ensures NamedIn(tokens, f) <==> exists k :: 0 <= k < |tokens| && TokenFeatureOf(tokens[k]) == Some(f)
    decreases |tokens|
  {
    if |tokens| > 0 {
      var init := tokens[..|tokens| - 1];
      NamedInExists(init, f);
      if exists k :: 0 <= k < |init| && TokenFeatureOf(init[k]) == Some(f) {
        var k :| 0 <= k < |init| && TokenFeatureOf(init[k]) == Some(f);
        assert tokens[k] == init[k];
      }
      if exists k :: 0 <= k < |tokens| && TokenFeatureOf(tokens[k]) == Some(f) {
        var k :| 0 <= k < |tokens| && TokenFeatureOf(tokens[k]) == Some(f);
        if k < |init| { assert init[k] == tokens[k]; }
      }
    }
  }

  /**
   * parseFeatures: every flag named by a recognised token of `features` is
   * set to `enabled`; unknown tokens are ignored and nothing else changes.
   */
  method ParseFeatures(c: FeatureFlags, features: string, enabled: bool) returns (r: FeatureFlags)
    ensures forall f :: Flag(r, f) == if Names(features, f) then enabled else Flag(c, f)
  {
    var tokens := GoText.Split(features, ',');
    r := c;
    var i := 0;
    while i < |tokens|
      invariant 0 <= i <= |tokens|
      invariant forall f :: Flag(r, f) == if NamedIn(tokens[..i], f) then enabled else Flag(c, f)
    {
      var feature := TokenFeatureOf(tokens[i]);
      if feature.Some? {
        r := SetFlag(r, feature.value, enabled);
      }
      assert tokens[..i + 1][..i] == tokens[..i];
      i := i + 1;
    }
    assert tokens[..i] == tokens;
  }

  // ---------------------------------------------------------------------
  // Precedence combinators
  // ---------------------------------------------------------------------

  /** Folds a list of optional writes over `base`: the last present write wins. */
  function LastWrite<T>(base: T, writes: seq<Option<T>>): T
    decreases |writes|
  {
    if |writes| == 0 then base
    else LastWrite(Over(base, writes[0]), writes[1..])
  }

  /** One write applied to a current value. */
  function Over<T>(current: T, write: Option<T>): T {
    if write.Some? then write.value else current
  }

  lemma LastWriteOfFive<T>(base: T, ws: seq<Option<T>>)
    requires |ws| == 5
    ensures LastWrite(base, ws) == Over(Over(Over(Over(Over(base, ws[0]), ws[1]), ws[2]), ws[3]), ws[4])
  {
    var b1 := Over(base, ws[0]);
    var b2 := Over(b1, ws[1]);
    var b3 := Over(b2, ws[2]);
    var b4 := Over(b3, ws[3]);
    assert ws[1..][1..] == ws[2..];
    assert ws[2..][1..] == ws[3..];
    assert ws[3..][1..] == ws[4..];
    assert ws[4..][1..] == [];
    calc {
      LastWrite(base, ws);
      LastWrite(b1, ws[1..]);
      LastWrite(b2, ws[2..]);
      LastWrite(b3, ws[3..]);
      LastWrite(b4, ws[4..]);
      { assert ws[4..][0] == ws[4]; }
      LastWrite(Over(b4, ws[4]), []);
    }
  }

  lemma LastWriteOfTwo<T>(base: T, ws: seq<Option<T>>)
    requires |ws| == 2
    ensures LastWrite(base, ws) == Over(Over(base, ws[0]), ws[1])
  {
    assert ws[1..][1..] == [];
    assert LastWrite(base, ws) == LastWrite(Over(base, ws[0]), ws[1..]);
  }

  lemma LastWriteOfThree<T>(base: T, ws: seq<Option<T>>)
    requires |ws| == 3
    ensures LastWrite(base, ws) == Over(Over(Over(base, ws[0]), ws[1]), ws[2])
  {
    assert ws[1..][1..] == ws[2..];
    assert ws[2..][1..] == [];
    assert LastWrite(base, ws) == LastWrite(Over(base, ws[0]), ws[1..]);
    assert LastWrite(Over(base, ws[0]), ws[1..]) == LastWrite(Over(Over(base, ws[0]), ws[1]), ws[2..]);
  }

  /** FirstNonEmpty unfolded over a list of four. */
  lemma FirstNonEmptyOfFour(a: string, b: string, c: string, d: string)
    ensures FirstNonEmpty([a, b, c, d]) ==
      if a != "" then Some(a) else if b != "" then Some(b)
      else if c != "" then Some(c) else if d != "" then Some(d) else None
  {
    assert [d][1..] == [];
    assert FirstNonEmpty([d]) == if d != "" then Some(d) else None;
    assert [c, d][1..] == [d];
    assert FirstNonEmpty([c, d]) == if c != "" then Some(c) else FirstNonEmpty([d]);
    assert [b, c, d][1..] == [c, d];
    assert FirstNonEmpty([b, c, d]) == if b != "" then Some(b) else FirstNonEmpty([c, d]);
    assert [a, b, c, d][1..] == [b, c, d];
  }

  /** The first non-empty candidate, if any. */
  function FirstNonEmpty(candidates: seq<string>): (r: Option<string>)
    ensures r.None? <==> forall i :: 0 <= i < |candidates| ==> candidates[i] == ""
    ensures r.Some? ==> r.value != "" && r.value in candidates
    ensures r.Some? ==> exists k :: 0 <= k < |candidates| && candidates[k] == r.value
                          && forall j :: 0 <= j < k ==> candidates[j] == ""
  {
    if |candidates| == 0 then None
    else if candidates[0] != "" then Some(candidates[0])
    else
      assert forall j :: 0 < j < |candidates| ==> candidates[j] == candidates[1..][j - 1];
      FirstNonEmpty(candidates[1..])
  }

  // ---------------------------------------------------------------------
  // Reference definition of the merge
  // ---------------------------------------------------------------------

  function FeatureDefault(f: Feature): bool {
    match f
    case TaskNotification => TaskNotificationEnabledDefault
    case GuestPolicies => GuestPoliciesEnabledDefault
    case OsInventory => OsInventoryEnabledDefault
  }

  /** The inventory setting of a tier: the current name if non-empty, else the legacy one. */
  function InventoryWrite(a: Attributes): Option<bool> {
    if a.inventoryEnabled != "" then Some(ParseBool(a.inventoryEnabled))
    else if a.inventoryEnabledOld != "" then Some(ParseBool(a.inventoryEnabledOld))
    else None
  }

  /**
   * The writes one tier makes to feature `f`, in the order they are applied:
   * the inventory setting, both prerelease lists, the enable-osconfig master
   * switch, and the disabled-features deny list.
   */
  function TierWrites(a: Attributes, f: Feature): seq<Option<bool>> {
    [ if f == OsInventory then InventoryWrite(a) else None,
      if Names(a.preReleaseFeaturesOld, f) then Some(true) else None,
      if Names(a.preReleaseFeatures, f) then Some(true) else None,
      if a.osConfigEnabled != "" then Some(ParseBool(a.osConfigEnabled)) else None,
      if Names(a.disabledFeatures, f) then Some(false) else None ]
  }

  /** Feature `f` after one tier is applied to `before`. */
  function TierFlag(a: Attributes, f: Feature, before: bool): bool {
    LastWrite(before, TierWrites(a, f))
  }

  /** Feature `f` after the project tier and then the instance tier are applied to `before`. */
  function TiersFlag(md: MetadataJson, f: Feature, before: bool): bool {
    TierFlag(md.instance.attributes, f, TierFlag(md.project.attributes, f, before))
  }

  /** Feature `f` after the default, the project tier and then the instance tier. */
  function ResolvedFlag(md: MetadataJson, f: Feature): bool {
    TiersFlag(md, f, FeatureDefault(f))
  }

  /** One poll-interval step; reading a nil json.Number is a nil-pointer panic. */
  datatype PollStep = KeepInterval | SetInterval(minutes: int) | NilDereference

  function FromParse(p: Option<int>): PollStep {
    match p
    case Some(v) => SetInterval(v)
    case None => KeepInterval
  }

  /** Project tier: the current name whenever present, else the legacy name. */
  function ProjectPollStep(a: Attributes): PollStep {
    if a.pollInterval.Some? then FromParse(GoText.ParseInt64(a.pollInterval.value))
    else if a.pollIntervalOld.Some? then FromParse(GoText.ParseInt64(a.pollIntervalOld.value))
    else KeepInterval
  }

  /**
   * Instance tier, as written: when only the legacy name is present its
   * branch reads the current name, which is nil there.
   */
  function InstancePollStep(a: Attributes): PollStep {
    if a.pollInterval.Some? then FromParse(GoText.ParseInt64(a.pollInterval.value))
    else if a.pollIntervalOld.Some? then NilDereference
    else KeepInterval
  }

  /**
   * Instance tier, as evidently intended: the legacy branch reads the legacy
   * attribute, as the project tier does.
   */
  function IntendedInstancePollStep(a: Attributes): (s: PollStep)
    ensures !s.NilDereference?
  {
    ProjectPollStep(a)
  }

  function PollWrite(s: PollStep): Option<int> {
    if s.SetInterval? then Some(s.minutes) else None
  }

  /** The poll-interval writes: the project tier's, then the instance tier's. */
  function PollWrites(md: MetadataJson): seq<Option<int>> {
    [PollWrite(ProjectPollStep(md.project.attributes)), PollWrite(InstancePollStep(md.instance.attributes))]
  }

  function ResolvedPollInterval(md: MetadataJson): int {
    LastWrite(OsConfigPollIntervalDefault, PollWrites(md))
  }

  /** The poll interval with the intended instance step. */
  function IntendedPollInterval(md: MetadataJson): int {
    LastWrite(OsConfigPollIntervalDefault,
              [PollWrite(ProjectPollStep(md.project.attributes)),
               PollWrite(IntendedInstancePollStep(md.instance.attributes))])
  }

  /** The legacy debug attribute: the project's if non-empty, else the instance's. */
  function LegacyDebugWrite(md: MetadataJson): Option<bool> {
    var p := md.project.attributes.debugEnabledOld;
    var i := md.instance.attributes.debugEnabledOld;
    if p != "" then Some(ParseBool(p)) else if i != "" then Some(ParseBool(i)) else None
  }

  /** A log level turns debugging on ("debug") or off ("info"), ignoring case. */
  function LogLevelWrite(level: string): Option<bool> {
    var l := GoText.ToLower(level);
    if l == "debug" then Some(true) else if l == "info" then Some(false) else None
  }

  /** The debug writes of the metadata: the legacy attribute, then both log levels. */
  function DebugWrites(md: MetadataJson): seq<Option<bool>> {
    [LegacyDebugWrite(md), LogLevelWrite(md.project.attributes.logLevel),
     LogLevelWrite(md.instance.attributes.logLevel)]
  }

  /** The debug setting after the metadata writes and then the debug flag. */
  function DebugAfter(before: bool, md: MetadataJson, flags: Flags): bool {
    flags.debug || LastWrite(before, DebugWrites(md))
  }

  function ResolvedDebug(md: MetadataJson, flags: Flags): bool {
    DebugAfter(DebugEnabledDefault, md, flags)
  }

  /** The endpoint candidates, instance tier first, current names before legacy ones. */
  function EndpointCandidates(md: MetadataJson): seq<string> {
    var i := md.instance.attributes;
    var p := md.project.attributes;
    [i.osConfigEndpoint, i.osConfigEndpointOld, p.osConfigEndpoint, p.osConfigEndpointOld]
  }

  /**
   * The endpoint after the flag and the metadata: a flag other than the
   * production endpoint wins, then the first non-empty candidate, else `before`.
   */
  function EndpointAfter(before: string, md: MetadataJson, flags: Flags): string {
    if flags.endpoint != ProdEndpoint then flags.endpoint
    else FirstNonEmpty(EndpointCandidates(md)).GetOr(before)
  }

  function ResolvedEndpoint(md: MetadataJson, flags: Flags): string {
    EndpointAfter(ProdEndpoint, md, flags)
  }

  /** A sticky field: replaced only by a non-empty value. */
  function Sticky(previous: string, supplied: string): string {
    if supplied != "" then supplied else previous
  }

  /** What createConfigFromMetadata produces: a new configuration, or a panic. */
  datatype MergeOutcome = Merged(config: Config) | Panicked

  /** The reference merge. */
  function Resolve(md: MetadataJson, prev: Config, flags: Flags): MergeOutcome {
    if InstancePollStep(md.instance.attributes).NilDereference? then Panicked
    else Merged(Config(
      osInventoryEnabled := ResolvedFlag(md, OsInventory),
      guestPoliciesEnabled := ResolvedFlag(md, GuestPolicies),
      taskNotificationEnabled := ResolvedFlag(md, TaskNotification),
      debugEnabled := ResolvedDebug(md, flags),
      svcEndpoint := ResolvedEndpoint(md, flags),
      googetRepoFilePath := GooGetRepoFilePath,
      zypperRepoFilePath := ZypperRepoFilePath,
      yumRepoFilePath := YumRepoFilePath,
      aptRepoFilePath := AptRepoFilePath,
      numericProjectID := if md.project.numericProjectId != 0 then md.project.numericProjectId
                          else prev.numericProjectID,
      osConfigPollInterval := ResolvedPollInterval(md),
      projectID := Sticky(prev.projectID, md.project.projectId),
      instanceZone := Sticky(prev.instanceZone, md.instance.zone),
      instanceName := Sticky(prev.instanceName, md.instance.name),
      instanceID := md.instance.id.GetOr(prev.instanceID)))
  }

  // ---------------------------------------------------------------------
  // The merge, step by step
  // ---------------------------------------------------------------------

  lemma {:induction false} LastWriteConcat<T>(base: T, xs: seq<Option<T>>, ys: seq<Option<T>>)
    ensures LastWrite(base, xs + ys) == LastWrite(LastWrite(base, xs), ys)
    decreases |xs|
  {
    if |xs| == 0 {
      assert xs + ys == ys;
    } else {
      assert (xs + ys)[1..] == xs[1..] + ys;
      LastWriteConcat(Over(base, xs[0]), xs[1..], ys);
    }
  }

  /**
   * One tier's feature attributes (the inventory switch, the two prerelease
   * lists, enable-osconfig and the deny list), applied in order.
   */
  method ApplyFeatureAttributes(c: FeatureFlags, a: Attributes) returns (r: FeatureFlags)
    ensures forall f :: Flag(r, f) == TierFlag(a, f, Flag(c, f))
  {
    r := c;
    if a.inventoryEnabled != "" {
      r := r.(osInventory := ParseBool(a.inventoryEnabled));
    } else if a.inventoryEnabledOld != "" {
      r := r.(osInventory := ParseBool(a.inventoryEnabledOld));
    }
    r := ParseFeatures(r, a.preReleaseFeaturesOld, true);
    r := ParseFeatures(r, a.preReleaseFeatures, true);
    if a.osConfigEnabled != "" {
      var e := ParseBool(a.osConfigEnabled);
      r := r.(taskNotification := e, guestPolicies := e, osInventory := e);
    }
    r := ParseFeatures(r, a.disabledFeatures, false);
    forall f {
      LastWriteOfFive(Flag(c, f), TierWrites(a, f));
    }
  }

  /** The five identity fields: non-empty (non-zero, present) values replace those of `c`. */
  method ApplyIdentity(c: Config, md: MetadataJson) returns (r: Config)
    ensures r == c.(projectID := Sticky(c.projectID, md.project.projectId),
                    numericProjectID := if md.project.numericProjectId != 0 then md.project.numericProjectId
                                        else c.numericProjectID,
                    instanceZone := Sticky(c.instanceZone, md.instance.zone),
                    instanceName := Sticky(c.instanceName, md.instance.name),
                    instanceID := md.instance.id.GetOr(c.instanceID))
  {
    var projectID, numericProjectID := c.projectID, c.numericProjectID;
    var zone, name, id := c.instanceZone, c.instanceName, c.instanceID;
    if md.project.projectId != "" {
      projectID := md.project.projectId;
    }
    if md.project.numericProjectId != 0 {
      numericProjectID := md.project.numericProjectId;
    }
    if md.instance.zone != "" {
      zone := md.instance.zone;
    }
    if md.instance.name != "" {
      name := md.instance.name;
    }
    if md.instance.id.Some? {
      id := md.instance.id.value;
    }
    r := c.(projectID := projectID, numericProjectID := numericProjectID,
            instanceZone := zone, instanceName := name, instanceID := id);
  }

  /** The project tier's feature attributes, then the instance tier's. */
  method ApplyTiers(c: Config, md: MetadataJson) returns (r: Config)
    ensures r == c.(taskNotificationEnabled := TiersFlag(md, TaskNotification, c.taskNotificationEnabled),
                    guestPoliciesEnabled := TiersFlag(md, GuestPolicies, c.guestPoliciesEnabled),
                    osInventoryEnabled := TiersFlag(md, OsInventory, c.osInventoryEnabled))
  {
    var ff := ApplyFeatureAttributes(FeaturesOf(c), md.project.attributes);
    ff := ApplyFeatureAttributes(ff, md.instance.attributes);
    assert Flag(FeaturesOf(c), TaskNotification) == c.taskNotificationEnabled;
    assert Flag(FeaturesOf(c), GuestPolicies) == c.guestPoliciesEnabled;
    assert Flag(FeaturesOf(c), OsInventory) == c.osInventoryEnabled;
    assert Flag(ff, TaskNotification) == ff.taskNotification;
    assert Flag(ff, GuestPolicies) == ff.guestPolicies;
    assert Flag(ff, OsInventory) == ff.osInventory;
    r := c.(taskNotificationEnabled := ff.taskNotification, guestPoliciesEnabled := ff.guestPolicies,
            osInventoryEnabled := ff.osInventory);
  }

  /**
   * The two poll-interval switches, project then instance. A parseable value
   * replaces the interval; an unparseable one leaves it. The instance's legacy
   * branch reads the current attribute, which is nil there, and panics.
   */
  method ApplyPollInterval(c: Config, md: MetadataJson) returns (r: MergeOutcome)
    ensures r.Panicked? <==> InstancePollStep(md.instance.attributes).NilDereference?
    ensures r.Merged? ==> r.config == c.(osConfigPollInterval := LastWrite(c.osConfigPollInterval, PollWrites(md)))
  {
    var p := md.project.attributes;
    var i := md.instance.attributes;
    var interval := c.osConfigPollInterval;
    if p.pollInterval.Some? {
      var v := GoText.ParseInt64(p.pollInterval.value);
      if v.Some? { interval := v.value; }
    } else if p.pollIntervalOld.Some? {
      var v := GoText.ParseInt64(p.pollIntervalOld.value);
      if v.Some? { interval := v.value; }
    }

    if i.pollInterval.Some? {
      var v := GoText.ParseInt64(i.pollInterval.value);
      if v.Some? { interval := v.value; }
    } else if i.pollIntervalOld.Some? {
      // The branch dereferences i.pollInterval, which is nil here.
      return Panicked;
    }
    LastWriteOfTwo(c.osConfigPollInterval, PollWrites(md));
    r := Merged(c.(osConfigPollInterval := interval));
  }

  /** The legacy debug switch, both log levels, then the debug flag. */
  method ApplyDebug(c: Config, md: MetadataJson, flags: Flags) returns (r: Config)
    ensures r == c.(debugEnabled := DebugAfter(c.debugEnabled, md, flags))
  {
    var p := md.project.attributes;
    var i := md.instance.attributes;
    var debug := c.debugEnabled;
    if p.debugEnabledOld != "" {
      debug := ParseBool(p.debugEnabledOld);
    } else if i.debugEnabledOld != "" {
      debug := ParseBool(i.debugEnabledOld);
    }

    var pl := GoText.ToLower(p.logLevel);
    if pl == "debug" {
      debug := true;
    } else if pl == "info" {
      debug := false;
    }

    var il := GoText.ToLower(i.logLevel);
    if il == "debug" {
      debug := true;
    } else if il == "info" {
      debug := false;
    }

    if flags.debug {
      debug := true;
    }
    LastWriteOfThree(c.debugEnabled, DebugWrites(md));
    r := c.(debugEnabled := debug);
  }

  /** The endpoint switch: the flag, then the instance's and the project's attributes. */
  method ApplyEndpoint(c: Config, md: MetadataJson, flags: Flags) returns (r: Config)
    ensures r == c.(svcEndpoint := EndpointAfter(c.svcEndpoint, md, flags))
  {
    var p := md.project.attributes;
    var i := md.instance.attributes;
    var endpoint := c.svcEndpoint;
    if flags.endpoint != ProdEndpoint {
      endpoint := flags.endpoint;
    } else if i.osConfigEndpoint != "" {
      endpoint := i.osConfigEndpoint;
    } else if i.osConfigEndpointOld != "" {
      endpoint := i.osConfigEndpointOld;
    } else if p.osConfigEndpoint != "" {
      endpoint := p.osConfigEndpoint;
    } else if p.osConfigEndpointOld != "" {
      endpoint := p.osConfigEndpointOld;
    }
    FirstNonEmptyOfFour(i.osConfigEndpoint, i.osConfigEndpointOld, p.osConfigEndpoint, p.osConfigEndpointOld);
    r := c.(svcEndpoint := endpoint);
  }

  /**
   * createConfigFromMetadata: the defaults, the sticky identity of `prev`,
   * the project then the instance feature attributes, the poll interval, the
   * debug setting and the endpoint, in that order. `prev` is the configuration
   * the store holds when the merge runs.
   */
  method CreateConfigFromMetadata(md: MetadataJson, prev: Config, flags: Flags) returns (r: MergeOutcome)
    ensures r == Resolve(md, prev, flags)
  {
    var c := Config(
      osInventoryEnabled := OsInventoryEnabledDefault,
      guestPoliciesEnabled := GuestPoliciesEnabledDefault,
      taskNotificationEnabled := TaskNotificationEnabledDefault,
      debugEnabled := DebugEnabledDefault,
      svcEndpoint := ProdEndpoint,
      googetRepoFilePath := GooGetRepoFilePath,
      zypperRepoFilePath := ZypperRepoFilePath,
      yumRepoFilePath := YumRepoFilePath,
      aptRepoFilePath := AptRepoFilePath,
      numericProjectID := prev.numericProjectID,
      osConfigPollInterval := OsConfigPollIntervalDefault,
      projectID := prev.projectID,
      instanceZone := prev.instanceZone,
      instanceName := prev.instanceName,
      instanceID := prev.instanceID);
    c := ApplyIdentity(c, md);

    c := ApplyTiers(c, md);

    r := ApplyPollInterval(c, md);
    if r.Panicked? {
      return;
    }
    c := r.config;
    c := ApplyDebug(c, md, flags);
    c := ApplyEndpoint(c, md, flags);
    r := Merged(c);
  }
}
