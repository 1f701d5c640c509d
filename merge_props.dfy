/**
 * Precedence rules of the merge, stated on the reference definition that
 * Merge.CreateConfigFromMetadata is proved to compute.
 */
module MergeProperties {
  import opened Common
  import opened ConfigModel
  import opened Merge
  import GoText

  // ---------------------------------------------------------------------
  // The precedence list: the last present write wins
  // ---------------------------------------------------------------------

  /** With no write present the base survives; otherwise the last present write is the value. */
  lemma {:induction false} LastWriteIsLastPresent<T>(base: T, ws: seq<Option<T>>)
    ensures (forall k :: 0 <= k < |ws| ==> ws[k].None?) ==> LastWrite(base, ws) == base
    ensures forall k :: 0 <= k < |ws| && ws[k].Some? && (forall j :: k < j < |ws| ==> ws[j].None?) ==>
              LastWrite(base, ws) == ws[k].value
    decreases |ws|
  {
    if |ws| > 0 {
      var rest := ws[1..];
      LastWriteIsLastPresent(Over(base, ws[0]), rest);
      assert forall j :: 0 < j < |ws| ==> ws[j] == rest[j - 1];
      forall k | 0 <= k < |ws| && ws[k].Some? && (forall j :: k < j < |ws| ==> ws[j].None?)
        ensures LastWrite(base, ws) == ws[k].value
      {
        if k > 0 {
          assert rest[k - 1] == ws[k];
          assert forall j :: k - 1 < j < |rest| ==> rest[j].None? by {
            forall j | k - 1 < j < |rest| ensures rest[j].None? { assert rest[j] == ws[j + 1]; }
          }
        } else {
          assert forall j :: 0 <= j < |rest| ==> rest[j].None? by {
            forall j | 0 <= j < |rest| ensures rest[j].None? { assert rest[j] == ws[j + 1]; }
          }
        }
      }
    }
  }

  // ---------------------------------------------------------------------
  // Feature flags
  // ---------------------------------------------------------------------

  /** The recognised tokens and the features they stand for; nothing else is recognised. */
  lemma TokenTable(t: string)
    ensures TokenFeature(t) == Some(TaskNotification) <==> t == "tasks" || t == "ospatch"
    ensures TokenFeature(t) == Some(GuestPolicies) <==> t == "guestpolicies" || t == "ospackage"
    ensures TokenFeature(t) == Some(OsInventory) <==> t == "osinventory"
    ensures TokenFeature(t).None? <==>
              t !in {"tasks", "ospatch", "guestpolicies", "ospackage", "osinventory"}
  {
    var tb := FeatureTokens;
    assert tb[4..][1..] == [];
    assert tb[3..][1..] == tb[4..];
    assert tb[2..][1..] == tb[3..];
    assert tb[1..][1..] == tb[2..];
    assert Lookup(tb[4..], t) == if t == "osinventory" then Some(OsInventory) else None;
    assert Lookup(tb[3..], t) == if t == "ospackage" then Some(GuestPolicies) else Lookup(tb[4..], t);
    assert Lookup(tb[2..], t) == if t == "guestpolicies" then Some(GuestPolicies) else Lookup(tb[3..], t);
    assert Lookup(tb[1..], t) == if t == "ospatch" then Some(TaskNotification) else Lookup(tb[2..], t);
    assert Lookup(tb, t) == if t == "tasks" then Some(TaskNotification) else Lookup(tb[1..], t);
    assert TokenFeature(t) ==
      if t == "tasks" then Some(TaskNotification) else if t == "ospatch" then Some(TaskNotification)
      else if t == "guestpolicies" then Some(GuestPolicies) else if t == "ospackage" then Some(GuestPolicies)
      else if t == "osinventory" then Some(OsInventory) else None;
  }

  /** A feature list names `f` exactly when one of its comma-separated tokens stands for `f`. */
  lemma NamesSpec(features: string, f: Feature)
    ensures Names(features, f) <==>
              exists k :: 0 <= k < |GoText.Split(features, ',')| &&
                          TokenFeature(NormalizeToken(GoText.Split(features, ',')[k])) == Some(f)
  {
    var tokens := GoText.Split(features, ',');
    NamedInExists(tokens, f);
    if Names(features, f) {
      var k :| 0 <= k < |tokens| && TokenFeatureOf(tokens[k]) == Some(f);
      assert TokenFeature(NormalizeToken(tokens[k])) == Some(f);
      assert 0 <= k < |GoText.Split(features, ',')| && TokenFeature(NormalizeToken(GoText.Split(features, ',')[k])) == Some(f);
    } else {
      forall k | 0 <= k < |tokens| ensures TokenFeature(NormalizeToken(tokens[k])) != Some(f) {
        assert TokenFeatureOf(tokens[k]) == TokenFeature(NormalizeToken(tokens[k]));
      }
    }
  }

  /** The deny list is applied last in a tier: a feature it names is off. */
  lemma DenyListWins(a: Attributes, f: Feature, before: bool)
    requires Names(a.disabledFeatures, f)
    ensures !TierFlag(a, f, before)
  {
    LastWriteOfFive(before, TierWrites(a, f));
  }

  /** A non-empty enable-osconfig sets the feature, unless the deny list names it. */
  lemma MasterSwitchDecides(a: Attributes, f: Feature, before: bool)
    requires a.osConfigEnabled != "" && !Names(a.disabledFeatures, f)
    ensures TierFlag(a, f, before) == ParseBool(a.osConfigEnabled)
  {
    LastWriteOfFive(before, TierWrites(a, f));
  }

  /** Without enable-osconfig and a denial, a prerelease list that names the feature turns it on. */
  lemma PrereleaseEnables(a: Attributes, f: Feature, before: bool)
    requires a.osConfigEnabled == "" && !Names(a.disabledFeatures, f)
    requires Names(a.preReleaseFeaturesOld, f) || Names(a.preReleaseFeatures, f)
    ensures TierFlag(a, f, before)
  {
    LastWriteOfFive(before, TierWrites(a, f));
  }

  /** The inventory switch: the current attribute name is read before the legacy one. */
  lemma InventoryCurrentBeatsLegacy(a: Attributes)
    ensures a.inventoryEnabled != "" ==> InventoryWrite(a) == Some(ParseBool(a.inventoryEnabled))
    ensures a.inventoryEnabled == "" && a.inventoryEnabledOld != "" ==>
              InventoryWrite(a) == Some(ParseBool(a.inventoryEnabledOld))
    ensures a.inventoryEnabled == "" && a.inventoryEnabledOld == "" ==> InventoryWrite(a).None?
  {
  }

  /**
   * With the other four writes absent, the inventory flag of a tier is the
   * parsed inventory setting, or the previous value when both names are empty.
   */
  lemma InventoryOnly(a: Attributes, before: bool)
    requires a.osConfigEnabled == ""
    requires !Names(a.preReleaseFeaturesOld, OsInventory) && !Names(a.preReleaseFeatures, OsInventory)
    requires !Names(a.disabledFeatures, OsInventory)
    ensures TierFlag(a, OsInventory, before) == InventoryWrite(a).GetOr(before)
  {
    LastWriteOfFive(before, TierWrites(a, OsInventory));
  }

  /** A tier that writes nothing for `f` leaves the flag as the tier before set it. */
  lemma QuietTierKeeps(a: Attributes, f: Feature, before: bool)
    requires forall k :: 0 <= k < 5 ==> TierWrites(a, f)[k].None?
    ensures TierFlag(a, f, before) == before
  {
    LastWriteIsLastPresent(before, TierWrites(a, f));
  }

  /** The two tiers form one precedence list: the project's writes, then the instance's. */
  lemma {:induction false} ResolvedFlagIsOneList(md: MetadataJson, f: Feature)
    ensures ResolvedFlag(md, f) ==
              LastWrite(FeatureDefault(f), TierWrites(md.project.attributes, f) + TierWrites(md.instance.attributes, f))
  {
    LastWriteConcat(FeatureDefault(f), TierWrites(md.project.attributes, f), TierWrites(md.instance.attributes, f));
  }

  /** A tier that writes `f` at all sets it regardless of what came before. */
  lemma WrittenTierIgnoresBefore(a: Attributes, f: Feature, k: nat, x: bool, y: bool)
    requires k < 5 && TierWrites(a, f)[k].Some?
    ensures TierFlag(a, f, x) == TierFlag(a, f, y)
  {
    LastWriteOfFive(x, TierWrites(a, f));
    LastWriteOfFive(y, TierWrites(a, f));
  }

  /** The instance tier overrides: once it writes `f`, the project tier does not matter. */
  lemma InstanceOverridesProject(md: MetadataJson, f: Feature, k: nat, before: bool)
    requires k < 5 && TierWrites(md.instance.attributes, f)[k].Some?
    ensures ResolvedFlag(md, f) == TierFlag(md.instance.attributes, f, before)
  {
    WrittenTierIgnoresBefore(md.instance.attributes, f, k,
                             TierFlag(md.project.attributes, f, FeatureDefault(f)), before);
  }

  /**
   * A project that enables everything with enable-osconfig=true, and an
   * instance whose disabled-features names the feature: the feature is off.
   */
  lemma InstanceDenialBeatsProjectMaster(md: MetadataJson, f: Feature)
    requires md.project.attributes.osConfigEnabled == "true"
    requires Names(md.instance.attributes.disabledFeatures, f)
    ensures !ResolvedFlag(md, f)
  {
    DenyListWins(md.instance.attributes, f, TierFlag(md.project.attributes, f, FeatureDefault(f)));
  }

  // ---------------------------------------------------------------------
  // Identity and constant fields
  // ---------------------------------------------------------------------

  /**
   * The identity fields keep the previous configuration's values unless the
   * document supplies a non-empty string, a non-zero number or an ID; the
   * repository paths are always the constants.
   */
  lemma IdentityIsSticky(md: MetadataJson, prev: Config, flags: Flags)
    requires Resolve(md, prev, flags).Merged?
    ensures var c := Resolve(md, prev, flags).config;
      && (md.project.projectId == "" ==> c.projectID == prev.projectID)
      && (md.project.projectId != "" ==> c.projectID == md.project.projectId)
      && (md.project.numericProjectId == 0 ==> c.numericProjectID == prev.numericProjectID)
      && (md.project.numericProjectId != 0 ==> c.numericProjectID == md.project.numericProjectId)
      && (md.instance.zone == "" ==> c.instanceZone == prev.instanceZone)
      && (md.instance.zone != "" ==> c.instanceZone == md.instance.zone)
      && (md.instance.name == "" ==> c.instanceName == prev.instanceName)
      && (md.instance.name != "" ==> c.instanceName == md.instance.name)
      && (md.instance.id.None? ==> c.instanceID == prev.instanceID)
      && (md.instance.id.Some? ==> c.instanceID == md.instance.id.value)
      && c.googetRepoFilePath == GooGetRepoFilePath
      && c.zypperRepoFilePath == ZypperRepoFilePath
      && c.yumRepoFilePath == YumRepoFilePath
      && c.aptRepoFilePath == AptRepoFilePath
  {
  }

  // ---------------------------------------------------------------------
  // Poll interval
  // ---------------------------------------------------------------------

  /** The merge panics exactly when only the instance's legacy poll interval is present. */
  lemma PanicExactlyOnInstanceLegacyPoll(md: MetadataJson, prev: Config, flags: Flags)
    ensures Resolve(md, prev, flags).Panicked? <==>
              md.instance.attributes.pollInterval.None? && md.instance.attributes.pollIntervalOld.Some?
  {
  }

  /** No poll-interval attribute anywhere: the default of 10 minutes. */
  lemma PollIntervalDefault(md: MetadataJson)
    requires md.project.attributes.pollInterval.None? && md.project.attributes.pollIntervalOld.None?
    requires md.instance.attributes.pollInterval.None? && md.instance.attributes.pollIntervalOld.None?
    ensures ResolvedPollInterval(md) == 10
  {
    LastWriteOfTwo(OsConfigPollIntervalDefault, PollWrites(md));
  }

  /**
   * The project's current attribute shadows its legacy one whenever it is
   * present: when it does not parse, the interval keeps the default even if
   * the legacy attribute would parse.
   */
  lemma ProjectCurrentShadowsLegacy(md: MetadataJson)
    requires md.project.attributes.pollInterval.Some?
    requires GoText.ParseInt64(md.project.attributes.pollInterval.value).None?
    requires md.instance.attributes.pollInterval.None? && md.instance.attributes.pollIntervalOld.None?
    ensures ResolvedPollInterval(md) == OsConfigPollIntervalDefault
  {
    LastWriteOfTwo(OsConfigPollIntervalDefault, PollWrites(md));
  }

  /** A parseable current project attribute sets the interval when the instance says nothing. */
  lemma ProjectCurrentPoll(md: MetadataJson, v: int)
    requires md.project.attributes.pollInterval.Some?
    requires GoText.ParseInt64(md.project.attributes.pollInterval.value) == Some(v)
    requires md.instance.attributes.pollInterval.None? && md.instance.attributes.pollIntervalOld.None?
    ensures ResolvedPollInterval(md) == v
  {
    LastWriteOfTwo(OsConfigPollIntervalDefault, PollWrites(md));
  }

  /** The project's legacy attribute is read when the current one is absent. */
  lemma ProjectLegacyPoll(md: MetadataJson, v: int)
    requires md.project.attributes.pollInterval.None? && md.project.attributes.pollIntervalOld.Some?
    requires GoText.ParseInt64(md.project.attributes.pollIntervalOld.value) == Some(v)
    requires md.instance.attributes.pollInterval.None? && md.instance.attributes.pollIntervalOld.None?
    ensures ResolvedPollInterval(md) == v
  {
    LastWriteOfTwo(OsConfigPollIntervalDefault, PollWrites(md));
  }

  /** A parseable instance value overrides whatever the project set. */
  lemma InstancePollOverrides(md: MetadataJson, v: int)
    requires md.instance.attributes.pollInterval.Some?
    requires GoText.ParseInt64(md.instance.attributes.pollInterval.value) == Some(v)
    ensures ResolvedPollInterval(md) == v
  {
    LastWriteOfTwo(OsConfigPollIntervalDefault, PollWrites(md));
  }

  /** An unparseable instance value leaves the project's result. */
  lemma InstanceUnparseableKeepsProject(md: MetadataJson)
    requires md.instance.attributes.pollInterval.Some?
    requires GoText.ParseInt64(md.instance.attributes.pollInterval.value).None?
    ensures ResolvedPollInterval(md) ==
              PollWrite(ProjectPollStep(md.project.attributes)).GetOr(OsConfigPollIntervalDefault)
  {
    LastWriteOfTwo(OsConfigPollIntervalDefault, PollWrites(md));
  }

  /**
   * The instance's legacy poll-interval attribute, alone: as written the merge
   * panics, however well the value parses.
   */
  lemma InstanceLegacyPollPanics(md: MetadataJson, prev: Config, flags: Flags)
    requires md.instance.attributes.pollInterval.None?
    requires md.instance.attributes.pollIntervalOld == Some("5")
    ensures GoText.ParseInt64("5") == Some(5)
    ensures Resolve(md, prev, flags) == Panicked
  {
    assert GoText.DigitsValue("5") == 5 by {
      assert "5"[..0] == "";
    }
  }

  /** With the intended step the instance's legacy attribute is read when the current one is absent. */
  lemma IntendedInstanceLegacyPoll(md: MetadataJson, v: int)
    requires md.instance.attributes.pollInterval.None? && md.instance.attributes.pollIntervalOld.Some?
    requires GoText.ParseInt64(md.instance.attributes.pollIntervalOld.value) == Some(v)
    ensures IntendedPollInterval(md) == v
  {
    LastWriteOfTwo(OsConfigPollIntervalDefault,
                   [PollWrite(ProjectPollStep(md.project.attributes)),
                    PollWrite(IntendedInstancePollStep(md.instance.attributes))]);
  }

  /** Wherever the code as written does not panic, the intended step computes the same interval. */
  lemma IntendedAgreesWhenNoPanic(md: MetadataJson)
    requires !InstancePollStep(md.instance.attributes).NilDereference?
    ensures IntendedPollInterval(md) == ResolvedPollInterval(md)
  {
    assert PollWrite(IntendedInstancePollStep(md.instance.attributes)) ==
           PollWrite(InstancePollStep(md.instance.attributes));
  }

  // ---------------------------------------------------------------------
  // Debug
  // ---------------------------------------------------------------------

  /** The debug flag forces debugging on. */
  lemma DebugFlagForces(md: MetadataJson, flags: Flags)
    requires flags.debug
    ensures ResolvedDebug(md, flags)
  {
  }

  /**
   * The project's legacy debug attribute is consulted before the instance's,
   * so a non-empty project value decides when no log level applies.
   */
  lemma ProjectLegacyDebugBeatsInstance(md: MetadataJson, flags: Flags)
    requires md.project.attributes.debugEnabledOld != ""
    requires LogLevelWrite(md.project.attributes.logLevel).None?
    requires LogLevelWrite(md.instance.attributes.logLevel).None?
    ensures ResolvedDebug(md, flags) == (flags.debug || ParseBool(md.project.attributes.debugEnabledOld))
  {
    LastWriteOfThree(DebugEnabledDefault, DebugWrites(md));
  }

  /** The instance's legacy debug attribute counts only when the project's is empty. */
  lemma InstanceLegacyDebug(md: MetadataJson, flags: Flags)
    requires md.project.attributes.debugEnabledOld == "" && md.instance.attributes.debugEnabledOld != ""
    requires LogLevelWrite(md.project.attributes.logLevel).None?
    requires LogLevelWrite(md.instance.attributes.logLevel).None?
    ensures ResolvedDebug(md, flags) == (flags.debug || ParseBool(md.instance.attributes.debugEnabledOld))
  {
    LastWriteOfThree(DebugEnabledDefault, DebugWrites(md));
  }

  /** A recognised instance log level decides the metadata's say, before the flag. */
  lemma InstanceLogLevelDecides(md: MetadataJson, flags: Flags)
    requires LogLevelWrite(md.instance.attributes.logLevel).Some?
    ensures ResolvedDebug(md, flags) == (flags.debug || LogLevelWrite(md.instance.attributes.logLevel).value)
  {
    LastWriteOfThree(DebugEnabledDefault, DebugWrites(md));
  }

  /** Log levels are compared after lower-casing; only "debug" and "info" are recognised. */
  lemma LogLevelCases(level: string)
    ensures GoText.ToLower(level) == "debug" ==> LogLevelWrite(level) == Some(true)
    ensures GoText.ToLower(level) == "info" ==> LogLevelWrite(level) == Some(false)
    ensures LogLevelWrite(level).Some? <==> GoText.ToLower(level) in {"debug", "info"}
  {
  }

  /** Upper-case spellings are recognised too. */
  lemma LogLevelIgnoresCase()
    ensures LogLevelWrite("DEBUG") == Some(true)
    ensures LogLevelWrite("Info") == Some(false)
    ensures LogLevelWrite("warning").None?
  {
    assert GoText.ToLower("DEBUG") == "debug";
    assert GoText.ToLower("Info") == "info";
    var w := GoText.ToLower("warning");
    assert |w| == 7;
  }

  // ---------------------------------------------------------------------
  // Endpoint
  // ---------------------------------------------------------------------

  /** An endpoint flag other than the production endpoint wins outright. */
  lemma EndpointFlagWins(md: MetadataJson, flags: Flags)
    requires flags.endpoint != ProdEndpoint
    ensures ResolvedEndpoint(md, flags) == flags.endpoint
  {
  }

  /**
   * With the production endpoint as the flag: the first non-empty of the
   * instance current, instance legacy, project current and project legacy
   * attributes, else the production endpoint.
   */
  lemma EndpointPrecedence(md: MetadataJson, flags: Flags)
    requires flags.endpoint == ProdEndpoint
    ensures var i := md.instance.attributes;
            var p := md.project.attributes;
            ResolvedEndpoint(md, flags) ==
              if i.osConfigEndpoint != "" then i.osConfigEndpoint
              else if i.osConfigEndpointOld != "" then i.osConfigEndpointOld
              else if p.osConfigEndpoint != "" then p.osConfigEndpoint
              else if p.osConfigEndpointOld != "" then p.osConfigEndpointOld
              else ProdEndpoint
  {
    var i := md.instance.attributes;
    var p := md.project.attributes;
    FirstNonEmptyOfFour(i.osConfigEndpoint, i.osConfigEndpointOld, p.osConfigEndpoint, p.osConfigEndpointOld);
  }

  /** The endpoint is empty exactly when the flag is set to the empty string. */
  lemma EndpointEmptyIffFlagEmpty(md: MetadataJson, flags: Flags)
    ensures ResolvedEndpoint(md, flags) == "" <==> flags.endpoint == ""
  {
  }

  /** The endpoint is always the flag, one of the four attributes, or the production endpoint. */
  lemma EndpointComesFromInputs(md: MetadataJson, flags: Flags)
    ensures var e := ResolvedEndpoint(md, flags);
            e == flags.endpoint || e == ProdEndpoint || e in EndpointCandidates(md)
  {
  }
}
