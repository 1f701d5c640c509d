# OS Config agent: configuration resolution, token cache and Windows Update filter

This project models two parts of the OS Config guest agent in Dafny and proves properties about them.

**The configuration package** (`config/config.go`) covers:
- the merge that turns a decoded metadata document, the previously stored configuration and the process flags into a new configuration. The merge assembles defaults, the sticky identity fields, the project then the instance feature attributes, the poll interval, the debug setting and the service endpoint;
- `parseFeatures` and `parseBool`, the token-level helpers the merge uses;
- `SetConfig`, the refresh. It makes at most three metadata requests, returns early on cancellation, decodes the body, and replaces the stored configuration;
- `formatMetadataError`, the classification of the final request error;
- the store and its accessors;
- the identity-token cache (`idToken.get`, `IDToken`);
- the task-state and restart-file paths.

**The Windows Update filter** (`ospatch/updates_windows.go`) covers:
- `checkFilters`: an exclusive-patch allow-list, a KB exclude list and a classification allow-list;
- the collection loop of `GetWUAUpdates`.

## Shape of the model

**Values.** The configuration record, the metadata document, flags, errors, KB IDs and categories are datatypes.

**State.**
- The global `agentConfig` is the class `ConfigStore.AgentStore`, with one `config` field.
- The token cache is the class `TokenCache.IdToken`, with `raw` and `exp` fields.

**Step-by-step code stays imperative:**
- `parseFeatures` and the collection loops are methods with loops and invariants;
- `createConfigFromMetadata`, `SetConfig` and `IDToken` are methods.

Most methods are proved equal to a reference definition, and the lemmas state the properties on that definition. The token-cache methods `TokenCache.IdToken.Get` and `IDToken` have no reference function: their contracts give the new state and result case by case.

- **Merge reference.** The merge is written as precedence lists:
  - `Merge.LastWrite` is a list of optional writes where the last present write wins.
  - `Merge.FirstNonEmpty` is a list of candidates where the first non-empty one wins.
- **Split by section.** `createConfigFromMetadata` is one Go function. The model splits it into one method per block of the function: identity, the two feature tiers, poll interval, debug and endpoint. Each method updates the record in the order the code does.
- **Feature fields.** `parseFeatures` and a tier's feature block touch only the three feature fields. The model passes those fields as a `Merge.FeatureFlags` value and writes them back into the record.

**External inputs are parameters:**
- the metadata client: `fetch(k)` is the k-th response;
- the context: `cancelled(k)` means the wait after the k-th failure ends by cancellation;
- the JSON decoder and `jws.Decode`;
- the clock: a nanosecond instant;
- `runtime.GOOS`;
- the `-endpoint` and `-debug` flags.

**Go library functions are written out in `GoText`:**
- `strings.Split` with one separator character;
- `strings.TrimSpace`, using `unicode.IsSpace`;
- `strings.ToLower`;
- `strconv.ParseBool`;
- `strconv.ParseInt(s, 10, 64)`, which `json.Number.Int64` calls.

**Points where the code's behaviour is easy to misread:**
- **Debug precedence.** The comment at config/config.go:182 says instance metadata overrides the project. The feature, poll-interval and endpoint blocks honour that. The legacy debug switch at config/config.go:239-244 does not: it tests the project's attribute first, and a `switch` takes its first matching case, so the project's legacy value beats the instance's. The log-level blocks after it do let the instance win. The model follows the switch.
- **Instance legacy poll interval.** The project branch at config/config.go:222-225 reads the legacy attribute it has just tested. The instance branch at config/config.go:233-235 instead reads the current attribute, which is nil there, so the merge panics (see Findings).
- **Exhausted retries.** After three failed requests the loop does not return the classified error. It falls through to decoding the body of the last request. If that body does not decode, the decode error is returned and the request error is lost. If it does decode, the store is replaced. See `ConfigStore.DecodeErrorAfterFailures`.
- **Poll interval range.** The poll interval is any int64 the attribute parses to, including zero and negative values; the code applies no range check.

## Model

| member | source | states |
|---|---|---|
| `ConfigModel.ParseBool` | config/config.go:102-109 | true exactly for the spellings strconv.ParseBool reads as true; every rejected string is false |
| `ConfigModel.FormatMetadataError` | config/config.go:281-291 | a DNS failure inside a URL error becomes the DNS message, an OpError inside a URL error becomes the network message (both directions), and every other error is returned unchanged |
| `ConfigModel.TaskStateFile` | config/config.go:488-495 | the Windows path exactly when GOOS is windows, otherwise the Linux path; either way a file inside that OS's config directory |
| `ConfigModel.RestartFile` | config/config.go:497-504 | the Windows marker exactly when GOOS is windows, otherwise the Linux one; either way inside that OS's config directory |
| `GoText.SplitJoin` | config/config.go:83 | no piece of a split contains the separator, and joining the pieces with it gives the input back |
| `GoText.TrimSpaceSpec` | config/config.go:84 | TrimSpace keeps a contiguous slice that neither starts nor ends with white space, and drops only white space |
| `GoText.LowerRune` | config/config.go:84 | a code point lowers to a lower-case ASCII letter exactly when it is an ASCII letter, U+0130 or U+212A; the letter it becomes is one it folds to, and every other code point is unchanged |
| `GoText.LowerRuneFolds` | config/config.go:84 | a code point lowers to a given lower-case ASCII letter exactly when it is that letter, its upper case, or U+0130 for i and U+212A for k |
| `GoText.ToLowerMatches` | config/config.go:246-258 | a lowered string equals a lower-case ASCII word exactly when it has the same length and each code point folds to the word's letter at that position |
| `GoText.ParseInt64` | config/config.go:219-235 | a parsed poll interval is within the int64 range; the text is an optional sign and then decimal digits whose value is the magnitude of the result, and the sign agrees with the result; conversely every such text whose signed value fits int64 ("+5" and "-0" included) parses |
| `GoText.ParseFormatInt` | config/config.go:219-234 | every int64 written in decimal parses back to itself |
| `Merge.NamedInExists` | config/config.go:82-94 | a token list names a feature exactly when one of its tokens stands for it |
| `Merge.ParseFeatures` | config/config.go:82-94 | each feature flag becomes `enabled` exactly when a recognised token of the comma-separated list names it, and is unchanged otherwise |
| `Merge.FirstNonEmpty` | config/config.go:265-276 | there is no result exactly when every candidate is empty; otherwise the result is a non-empty candidate and every candidate before it is empty |
| `Merge.ApplyFeatureAttributes` | config/config.go:183-198 | each flag ends as the tier's precedence list (inventory switch, both prerelease lists, enable-osconfig, deny list) folded over its previous value |
| `Merge.ApplyTiers` | config/config.go:182-215 | the three flags become the project tier then the instance tier applied to their values; nothing else changes |
| `Merge.ApplyIdentity` | config/config.go:166-180 | each identity field is replaced only by a non-empty name, a non-zero number or a present ID; nothing else changes |
| `Merge.ApplyPollInterval` | config/config.go:217-237 | panics exactly in the instance's legacy-only case; otherwise sets the interval to the last parsed value of the project then the instance tier, and nothing else changes |
| `Merge.ApplyDebug` | config/config.go:239-263 | the debug setting becomes the fold of the legacy attribute, the project then the instance log level, and then the debug flag; nothing else changes |
| `Merge.ApplyEndpoint` | config/config.go:265-276 | the endpoint becomes a non-default flag, else the first non-empty of instance current, instance legacy, project current and project legacy, else its value before |
| `Merge.CreateConfigFromMetadata` | config/config.go:144-279 | the result is the reference merge `Resolve` of the document, the previous configuration and the flags, a panic included |
| `Merge.LastWriteConcat` | config/config.go:182-215 | folding two write lists one after the other is folding their concatenation |
| `Merge.IntendedInstancePollStep` | config/config.go:233-235 | the intended instance step never dereferences nil |
| `MergeProperties.LastWriteIsLastPresent` | config/config.go:182-263 | with no write present the base survives; otherwise the last present write is the value |
| `MergeProperties.TokenTable` | config/config.go:86-92 | tasks and ospatch stand for task notification, guestpolicies and ospackage for guest policies, osinventory for inventory; nothing else is recognised |
| `MergeProperties.NamesSpec` | config/config.go:82-94 | a feature list names a feature exactly when one of its trimmed, lower-cased comma-separated tokens stands for it |
| `MergeProperties.DenyListWins` | config/config.go:198 | a feature named in a tier's disabled-features list is off after that tier |
| `MergeProperties.MasterSwitchDecides` | config/config.go:192-198 | a non-empty enable-osconfig sets the feature to its parsed value unless the deny list names it |
| `MergeProperties.PrereleaseEnables` | config/config.go:190-191 | with no enable-osconfig and no denial, a prerelease list naming the feature turns it on |
| `MergeProperties.InventoryCurrentBeatsLegacy` | config/config.go:183-188 | the current inventory attribute is read before the legacy one; neither present means no write |
| `MergeProperties.InventoryOnly` | config/config.go:183-198 | with the other writes absent, the inventory flag is the parsed setting, or its previous value |
| `MergeProperties.QuietTierKeeps` | config/config.go:200-215 | a tier that writes nothing for a feature leaves it as the tier before set it |
| `MergeProperties.ResolvedFlagIsOneList` | config/config.go:182-215 | the two tiers form one precedence list, the project's writes then the instance's |
| `MergeProperties.WrittenTierIgnoresBefore` | config/config.go:200-215 | a tier that writes a feature at all sets it independently of the earlier value |
| `MergeProperties.InstanceOverridesProject` | config/config.go:182-215 | once the instance tier writes a feature, the project tier does not matter |
| `MergeProperties.InstanceDenialBeatsProjectMaster` | config/config.go:192-215 | project enable-osconfig=true and an instance denial of a feature leave the feature off |
| `MergeProperties.IdentityIsSticky` | config/config.go:154-180 | identity fields keep the previous values unless the document supplies them; repository paths are always the constants |
| `MergeProperties.PanicExactlyOnInstanceLegacyPoll` | config/config.go:228-237 | the merge panics exactly when the instance has the legacy poll-interval attribute and not the current one |
| `MergeProperties.PollIntervalDefault` | config/config.go:62 | with no poll-interval attribute the interval is 10 |
| `MergeProperties.ProjectCurrentShadowsLegacy` | config/config.go:217-226 | a present but unparseable project current attribute keeps the default even beside a parseable legacy one |
| `MergeProperties.ProjectCurrentPoll` | config/config.go:218-221 | a parseable project current attribute sets the interval when the instance has no poll attribute |
| `MergeProperties.ProjectLegacyPoll` | config/config.go:222-225 | the project legacy attribute is read when the current one is absent |
| `MergeProperties.InstancePollOverrides` | config/config.go:229-232 | a parseable instance value overrides the project's result |
| `MergeProperties.InstanceUnparseableKeepsProject` | config/config.go:229-232 | an unparseable instance value leaves the project's result |
| `MergeProperties.InstanceLegacyPollPanics` | config/config.go:233-235 | an instance with only the legacy attribute, even a valid "5", makes the merge panic |
| `MergeProperties.IntendedInstanceLegacyPoll` | config/config.go:233-235 | with the intended step the instance's legacy value is used when the current one is absent |
| `MergeProperties.IntendedAgreesWhenNoPanic` | config/config.go:228-237 | wherever the code as written does not panic, the intended step gives the same interval |
| `MergeProperties.DebugFlagForces` | config/config.go:260-263 | the debug flag forces debugging on |
| `MergeProperties.ProjectLegacyDebugBeatsInstance` | config/config.go:239-244 | a non-empty project legacy debug attribute decides over the instance's when no log level applies |
| `MergeProperties.InstanceLegacyDebug` | config/config.go:239-244 | the instance legacy debug attribute counts only when the project's is empty |
| `MergeProperties.InstanceLogLevelDecides` | config/config.go:253-258 | a recognised instance log level decides what the metadata says about debugging |
| `MergeProperties.LogLevelCases` | config/config.go:246-258 | a log level writes true for "debug", false for "info" after lower-casing, and nothing otherwise |
| `MergeProperties.LogLevelIgnoresCase` | config/config.go:246-258 | "DEBUG" and "Info" are recognised, "warning" is not |
| `MergeProperties.EndpointFlagWins` | config/config.go:266-267 | an endpoint flag other than the production endpoint wins outright |
| `MergeProperties.EndpointPrecedence` | config/config.go:265-276 | with the default flag: instance current, instance legacy, project current, project legacy, else the production endpoint |
| `MergeProperties.EndpointEmptyIffFlagEmpty` | config/config.go:265-276 | the endpoint is empty exactly when the flag is the empty string |
| `MergeProperties.EndpointComesFromInputs` | config/config.go:265-276 | the endpoint is the flag, one of the four attributes or the production endpoint |
| `ConfigStore.AgentStore.constructor` | config/config.go:70 | the store starts from the zero configuration |
| `ConfigStore.AgentStore.GetAgentConfig` | config/config.go:96-100 | returns the stored configuration |
| `ConfigStore.AgentStore.SetConfig` | config/config.go:294-330 | status and new store are the fetch loop, the decode and the merge against the old store: cancellation and decode errors and panics leave the store alone, and a merge replaces it |
| `ConfigStore.AgentStore.Instance` | config/config.go:406-410 | the zone, then "/instances/", then the name |
| `ConfigStore.AgentStore.SvcPollInterval` | config/config.go:332-335 | minutes times one minute in nanoseconds, exact when it fits int64, otherwise wrapped modulo 2^64 |
| `ConfigStore.WrapInt64` | config/config.go:333-335 | the result is in the int64 range, congruent to its input modulo 2^64, and equal to it when it fits |
| `ConfigStore.FetchFromBounds` | config/config.go:299-317 | from request n on, the loop makes at least n+1 and at most three requests |
| `ConfigStore.FetchLoopBounds` | config/config.go:299-317 | SetConfig makes one to three requests |
| `ConfigStore.FirstSuccessEndsLoop` | config/config.go:300-303 | a successful first request ends the loop with no error |
| `ConfigStore.CancelledWaitEndsLoop` | config/config.go:304-316 | a cancelled wait, after the first or after the second failure, ends the loop without another request |
| `ConfigStore.SustainedFailure` | config/config.go:304-309 | three failures end the loop with the third body and the third error, classified |
| `ConfigStore.FetchErrorIsThirdFailure` | config/config.go:304-309 | an error leaves the loop only after three requests, and it is the third one's, classified |
| `ConfigStore.CancelledKeepsStore` | config/config.go:314-315 | a cancelled refresh returns no error and keeps the store |
| `ConfigStore.DecodeErrorAfterFailures` | config/config.go:306-322 | after three failures, an undecodable body returns the decode error, loses the request error, and keeps the store |
| `ConfigStore.StoreChangesOnlyByMerge` | config/config.go:319-329 | the store changes only to the merge of a decoded body, and the status then carries the loop's error |
| `ConfigStore.MergeReplacesStore` | config/config.go:319-329 | a fetched body that decodes and merges without a panic replaces the store by that merge, and the status is the loop's error |
| `ConfigStore.PanicKeepsStore` | config/config.go:324-327 | a panicking merge leaves the store unchanged |
| `TokenCache.IdToken.constructor` | config/config.go:461 | the cache starts with no token and no expiry |
| `TokenCache.IdToken.Get` | config/config.go:443-459 | a failed request or decode returns the error and changes nothing; a success stores the token and its expiry claim in nanoseconds |
| `TokenCache.IdToken.IDToken` | config/config.go:464-476 | a fresh token is returned from the cache with no request; a refresh that fails returns "" and the error, leaving the cache alone; a refresh that succeeds returns and stores the new token |
| `TokenCache.RefreshBoundary` | config/config.go:468-469 | exactly ten minutes before expiry the token is still used; a nanosecond later it is refreshed |
| `TokenCache.NeedsRefreshMonotone` | config/config.go:468-469 | once a refresh is due it stays due |
| `TokenCache.FreshTokenIsCached` | config/config.go:454-475 | a token is served from the cache at every instant up to ten minutes before its expiry claim |
| `WindowsUpdates.Contains` | ospatch/updates_windows.go:97-111 | the inner pattern loop finds the value exactly when it is in the list |
| `WindowsUpdates.ScanKbArticles` | ospatch/updates_windows.go:96-128 | the KB loop computes the scan: the first unreadable item fails it, the first listed ID matches |
| `WindowsUpdates.CheckFilters` | ospatch/updates_windows.go:85-160 | the verdict or error is the reference filter's, and an error always comes with false |
| `WindowsUpdates.GetWuaUpdates` | ospatch/updates_windows.go:163-213 | the listing is the reference: search and count errors, the bypass, then the filtered loop |
| `WindowsUpdates.ScanKbsReadable` | ospatch/updates_windows.go:96-128 | over readable IDs the scan never fails and matches exactly when some ID is in the list |
| `WindowsUpdates.ScanCategoriesReadable` | ospatch/updates_windows.go:140-156 | over readable categories the scan never fails and matches exactly when some CategoryID is in the filter |
| `WindowsUpdates.ExclusivePatchesDecide` | ospatch/updates_windows.go:96-114 | with exclusive patches, accepted exactly when some KB ID is one; excludes and classes are ignored |
| `WindowsUpdates.ExcludedKbRejects` | ospatch/updates_windows.go:116-129 | with no exclusive patches, an excluded KB ID rejects |
| `WindowsUpdates.EmptyClassFilterAccepts` | ospatch/updates_windows.go:131-133 | with no exclusive patches and no excluded ID, an empty classification filter accepts |
| `WindowsUpdates.ClassFilterDecides` | ospatch/updates_windows.go:135-159 | with a classification filter, a non-excluded update is accepted exactly when a category is in it |
| `WindowsUpdates.UnreadableTitleFails` | ospatch/updates_windows.go:86-89 | an unreadable title fails the filter whatever the lists say |
| `WindowsUpdates.KeptConcat` | ospatch/updates_windows.go:193-212 | the kept updates of a concatenation are the kept updates of each part, in order |
| `WindowsUpdates.KeptMembers` | ospatch/updates_windows.go:193-212 | an update is kept exactly when it is in the collection and accepted |
| `WindowsUpdates.CollectSpec` | ospatch/updates_windows.go:193-212 | the loop fails exactly when some update is unreadable or fails its filter; otherwise it lists the kept updates |
| `WindowsUpdates.BypassReturnsAll` | ospatch/updates_windows.go:175-177 | with no classification filter and no exclude list the whole collection is returned, even with exclusive patches |
| `WindowsUpdates.FilteredListing` | ospatch/updates_windows.go:175-212 | with a filter in force, the listing fails exactly when some update aborts it; otherwise it is exactly the accepted updates in order |

The remaining accessors read one field of the store and carry no contract. They are `Debug` (the flag or the stored setting), `SvcEndpoint`, the four repository paths, the three feature flags, `NumericProjectID`, `ProjectID`, `Zone`, `Name` and `ID` (config/config.go:356-435).

## Left out

- Locking is not modelled: the `sync.RWMutex` of the store and the mutex of the token cache. The model is sequential; it replaces the stored record in one assignment.
- The metadata HTTP client is left out, as are `json.Unmarshal` and `jws.Decode`. Each is an injected result. A decoded document is a datatype; a json.Number is kept as its text.
- `time.Ticker` and its five-second wait are left out. `context` is reduced to the `cancelled` oracle. It is not modelled which of a ready ticker and a done context `select` picks.
- `time.Now` is a parameter. `exp.Add(-10*time.Minute)` and `time.Unix(exp, 0)` are computed over unbounded integers, without time.Time's range limits.
- `MaxMetadataRetryDelay` (30 seconds) is left out. `SetConfig` does not use it; it waits on its own 5-second ticker (config/config.go:298). `MaxMetadataRetries` is the constant 3. `SetConfig` does not call it either; it hard-codes its exit at `webErrorCount == 2` (config/config.go:306). `ConfigStore.FetchFromBounds` proves that exit gives the same bound.
- Go `int` is taken to be 64 bits wide. The model handles the `int(val)` casts (config/config.go:220, 224, 231, 235) and the `int` fields as exact, which holds only on 64-bit platforms.
- These are left out as output or trivia: `Version`, `SetVersion`, `SerialLogPort`, `Stdout`, and the logging calls.
- `SystemRebootRequired` (registry I/O) is left out.
- COM plumbing is left out: `getIterativeProp`, `oleutil.CreateObject`, `IDispatch`, `Release`, and the failures of creating the new collection and of `Add`. The model returns the kept entries as a sequence.
- The `int32` type assertion on a collection's `Count` is left out. A failed assertion reads as 0 in the code; the model takes the count to be the number of Item reads.
- `GoText.ToLower` lowers only the code points whose lower case is ASCII. That is exact wherever the lowered text is compared with an ASCII word, as the code does.
- The concurrent readers of the store are not modelled: the accessors read the current `config` field. Each merge runs against the configuration the store holds when the merge starts.

## Findings

| source | as written | input that shows it | evidently intended | confidence | as-written member | corrected member |
|---|---|---|---|---|---|---|
| config/config.go:233-235 | the instance's legacy poll-interval case calls `Int64` on the current attribute, which is nil in that case, so the merge panics | an instance with `os-config-poll-interval` = "5" and no `osconfig-poll-interval` | read `PollIntervalOld`, as the project case on lines 222-225 does | not executed | `MergeProperties.InstanceLegacyPollPanics` | `Merge.IntendedInstancePollStep` |

The code as written is what `Merge.CreateConfigFromMetadata` and `ConfigStore.AgentStore.SetConfig` model: a panic there leaves the store unchanged. `Merge.IntendedPollInterval` uses the corrected step. `MergeProperties.IntendedInstanceLegacyPoll` proves that it honours the legacy attribute. `MergeProperties.IntendedAgreesWhenNoPanic` proves that it matches the code wherever the code does not panic.
