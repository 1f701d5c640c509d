/**
 * The agent's global configuration store: SetConfig's bounded fetch loop,
 * the decode step, the replacement of the stored configuration, and the
 * accessors that read it.
 *
 * The metadata client, the JSON decoder and the context are parameters:
 * `fetch(k)` is what the k-th request (counting from 0) returns,
 * `cancelled(k)` says that the context is done when the wait after the k-th
 * failed request ends, and `decode` stands for json.Unmarshal.
 */
module ConfigStore {
  import opened Common
  import opened ConfigModel
  import opened Merge
  import GoText

  /** The body and the error of one metadata request. */
  datatype FetchResult = FetchResult(body: string, err: Option<TransportError>)

  /** json.Unmarshal of a body into the metadata document. */
  datatype DecodeResult = Decoded(md: MetadataJson) | DecodeFailed(reason: string)

  /** How the fetch loop ended, and how many requests it made. */
  datatype FetchOutcome =
    | Cancelled(fetches: nat)
    | Fetched(body: string, err: Option<Error>, fetches: nat)

  /** What SetConfig returns; Panic is the nil dereference of the merge. */
  datatype Status = Done(err: Option<Error>) | Panic

  /**
   * The fetch loop from request `n` on: a success ends it; the third failure
   * ends it with the classified error and that request's body; any earlier
   * failure waits, and a cancelled wait ends the loop.
   */
  function FetchFrom(fetch: nat -> FetchResult, cancelled: nat -> bool, n: nat): FetchOutcome
    requires n <= 2
    decreases 2 - n
  {
    var res := fetch(n);
    if res.err.None? then Fetched(res.body, None, n + 1)
    else if n == 2 then Fetched(res.body, Some(FormatMetadataError(res.err.value)), n + 1)
    else if cancelled(n + 1) then Cancelled(n + 1)
    else FetchFrom(fetch, cancelled, n + 1)
  }

  function FetchLoop(fetch: nat -> FetchResult, cancelled: nat -> bool): FetchOutcome {
    FetchFrom(fetch, cancelled, 0)
  }

  /** The status SetConfig returns and the configuration the store then holds. */
  datatype Refresh = Refresh(status: Status, config: Config)

  /** SetConfig's reference: the fetch loop, the decode, then the merge against `prev`. */
  function SetConfigSpec(fetch: nat -> FetchResult, cancelled: nat -> bool,
                         decode: string -> DecodeResult, flags: Flags, prev: Config): Refresh
  {
    match FetchLoop(fetch, cancelled)
    case Cancelled(_) => Refresh(Done(None), prev)
    case Fetched(body, webError, _) =>
      match decode(body)
      case DecodeFailed(reason) => Refresh(Done(Some(Decode(reason))), prev)
      case Decoded(md) =>
        match Resolve(md, prev, flags)
        case Panicked => Refresh(Panic, prev)
        case Merged(c) => Refresh(Done(webError), c)
  }

  const MinuteNanos := 60_000_000_000

  /** Two's-complement wrap-around of an int64 computation. */
  function WrapInt64(x: int): (r: int)
    ensures GoText.MinInt64 <= r <= GoText.MaxInt64
    ensures (x - r) % 0x1_0000_0000_0000_0000 == 0
    ensures GoText.MinInt64 <= x <= GoText.MaxInt64 ==> r == x
  {
    (x - GoText.MinInt64) % 0x1_0000_0000_0000_0000 + GoText.MinInt64
  }

  /** The `agentConfig` global behind its lock, which is not modelled. */
  class AgentStore {
    var config: Config

    /** The store starts from the zero configuration. */
    constructor ()
      ensures config == ZeroConfig
    {
      config := ZeroConfig;
    }

    /** getAgentConfig: a copy of the stored configuration. */
    method GetAgentConfig() returns (c: Config)
      ensures c == config
    {
      c := config;
    }

    /**
     * SetConfig: up to three requests, a cancellation check between them,
     * then the decode and the merge; the store is replaced only when the
     * merge produces a configuration.
     */
    method SetConfig(fetch: nat -> FetchResult, cancelled: nat -> bool,
                     decode: string -> DecodeResult, flags: Flags) returns (s: Status)
      modifies this
      ensures Refresh(s, config) == SetConfigSpec(fetch, cancelled, decode, flags, old(config))
    {
      var md: string;
      var webError: Option<Error>;
      var webErrorCount := 0;
      while true
        invariant 0 <= webErrorCount <= 2
        invariant config == old(config)
        invariant FetchLoop(fetch, cancelled) == FetchFrom(fetch, cancelled, webErrorCount)
        decreases 2 - webErrorCount
      {
        var res := fetch(webErrorCount);
        md := res.body;
        if res.err.None? {
          webError := None;
          break;
        }
        if webErrorCount == 2 {
          webError := Some(FormatMetadataError(res.err.value));
          break;
        }
        webErrorCount := webErrorCount + 1;
        if cancelled(webErrorCount) {
          return Done(None);
        }
      }
      assert FetchLoop(fetch, cancelled) == Fetched(md, webError, webErrorCount + 1);

      var decoded := decode(md);
      if decoded.DecodeFailed? {
        return Done(Some(Decode(decoded.reason)));
      }
      var merged := CreateConfigFromMetadata(decoded.md, config, flags);
      if merged.Panicked? {
        return Panic;
      }
      config := merged.config;
      return Done(webError);
    }

    /** Debug: the -debug flag or the stored debug setting. */
    function Debug(flags: Flags): bool
      reads this
    {
      flags.debug || config.debugEnabled
    }

    function SvcEndpoint(): string reads this { config.svcEndpoint }
    function ZypperRepoFilePath(): string reads this { config.zypperRepoFilePath }
    function YumRepoFilePath(): string reads this { config.yumRepoFilePath }
    function AptRepoFilePath(): string reads this { config.aptRepoFilePath }
    function GooGetRepoFilePath(): string reads this { config.googetRepoFilePath }
    function OsInventoryEnabled(): bool reads this { config.osInventoryEnabled }
    function GuestPoliciesEnabled(): bool reads this { config.guestPoliciesEnabled }
    function TaskNotificationEnabled(): bool reads this { config.taskNotificationEnabled }
    function NumericProjectID(): int reads this { config.numericProjectID }
    function ProjectID(): string reads this { config.projectID }
    function Zone(): string reads this { config.instanceZone }
    function Name(): string reads this { config.instanceName }
    function ID(): string reads this { config.instanceID }

    /** Instance: the zone (which carries the projects/…/zones prefix), "/instances/", the name. */
    function Instance(): (uri: string)
      reads this
      ensures |uri| == |Zone()| + 11 + |Name()|
      ensures uri[..|Zone()|] == Zone()
      ensures uri[|Zone()|..|Zone()| + 11] == "/instances/"
      ensures uri[|Zone()| + 11..] == Name()
    {
      Zone() + "/instances/" + Name()
    }

    /**
     * SvcPollInterval: the interval in minutes as a time.Duration, that is in
     * nanoseconds, with the int64 wrap-around of the multiplication.
     */
    function SvcPollInterval(): (d: int)
      reads this
      ensures GoText.MinInt64 <= d <= GoText.MaxInt64
      ensures (config.osConfigPollInterval * MinuteNanos - d) % 0x1_0000_0000_0000_0000 == 0
      ensures GoText.MinInt64 <= config.osConfigPollInterval * MinuteNanos <= GoText.MaxInt64 ==>
                d == config.osConfigPollInterval * MinuteNanos
    {
      WrapInt64(config.osConfigPollInterval * MinuteNanos)
    }
  }

  // ---------------------------------------------------------------------
  // Properties of the fetch loop and of SetConfig
  // ---------------------------------------------------------------------

  /**
   * From request `n` on the loop makes at least one and at most three
   * requests in all: it stops at the failure seen with `webErrorCount == 2`,
   * which is the bound MaxMetadataRetries reports.
   */
  lemma {:induction false} FetchFromBounds(fetch: nat -> FetchResult, cancelled: nat -> bool, n: nat)
    requires n <= 2
    ensures n + 1 <= FetchFrom(fetch, cancelled, n).fetches <= MaxMetadataRetries
    decreases 2 - n
  {
    if fetch(n).err.Some? && n < 2 && !cancelled(n + 1) {
      FetchFromBounds(fetch, cancelled, n + 1);
    }
  }

  /** SetConfig makes between one and three requests. */
  lemma FetchLoopBounds(fetch: nat -> FetchResult, cancelled: nat -> bool)
    ensures 1 <= FetchLoop(fetch, cancelled).fetches <= MaxMetadataRetries
  {
    FetchFromBounds(fetch, cancelled, 0);
  }

  /** A first request that succeeds ends the loop at once, with no error. */
  lemma FirstSuccessEndsLoop(fetch: nat -> FetchResult, cancelled: nat -> bool)
    requires fetch(0).err.None?
    ensures FetchLoop(fetch, cancelled) == Fetched(fetch(0).body, None, 1)
  {
  }

  /**
   * A cancelled wait ends the loop with no further request, whether it is
   * the wait after the first failure (`n == 0`) or after the second (`n == 1`).
   */
  lemma CancelledWaitEndsLoop(fetch: nat -> FetchResult, cancelled: nat -> bool, n: nat)
    requires n <= 1
    requires forall j :: 0 <= j <= n ==> fetch(j).err.Some?
    requires forall j :: 1 <= j <= n ==> !cancelled(j)
    requires cancelled(n + 1)
    ensures FetchLoop(fetch, cancelled) == Cancelled(n + 1)
  {
  }

  /**
   * Three failed requests with no cancellation: the loop falls through with
   * the third request's body and its error, classified.
   */
  lemma SustainedFailure(fetch: nat -> FetchResult, cancelled: nat -> bool)
    requires fetch(0).err.Some? && fetch(1).err.Some? && fetch(2).err.Some?
    requires !cancelled(1) && !cancelled(2)
    ensures FetchLoop(fetch, cancelled) ==
              Fetched(fetch(2).body, Some(FormatMetadataError(fetch(2).err.value)), 3)
  {
    assert FetchFrom(fetch, cancelled, 1) == FetchFrom(fetch, cancelled, 2);
  }

  /** An error comes out of the loop only after the third request failed, and it is that request's. */
  lemma FetchErrorIsThirdFailure(fetch: nat -> FetchResult, cancelled: nat -> bool)
    requires FetchLoop(fetch, cancelled).Fetched? && FetchLoop(fetch, cancelled).err.Some?
    ensures FetchLoop(fetch, cancelled).fetches == 3
    ensures fetch(2).err.Some?
    ensures FetchLoop(fetch, cancelled) ==
              Fetched(fetch(2).body, Some(FormatMetadataError(fetch(2).err.value)), 3)
  {
    if fetch(0).err.Some? && !cancelled(1) {
      assert FetchLoop(fetch, cancelled) == FetchFrom(fetch, cancelled, 1);
      if fetch(1).err.Some? && !cancelled(2) {
        assert FetchFrom(fetch, cancelled, 1) == FetchFrom(fetch, cancelled, 2);
      }
    }
  }

  /** A cancelled loop returns no error and leaves the store as it was. */
  lemma CancelledKeepsStore(fetch: nat -> FetchResult, cancelled: nat -> bool,
                            decode: string -> DecodeResult, flags: Flags, prev: Config)
    requires FetchLoop(fetch, cancelled).Cancelled?
    ensures SetConfigSpec(fetch, cancelled, decode, flags, prev) == Refresh(Done(None), prev)
  {
  }

  /**
   * Three failures and a body that does not decode: the decode error is
   * returned, the request error is lost, and the store keeps its value.
   */
  lemma DecodeErrorAfterFailures(fetch: nat -> FetchResult, cancelled: nat -> bool,
                                 decode: string -> DecodeResult, flags: Flags, prev: Config)
    requires fetch(0).err.Some? && fetch(1).err.Some? && fetch(2).err.Some?
    requires !cancelled(1) && !cancelled(2)
    requires decode(fetch(2).body).DecodeFailed?
    ensures SetConfigSpec(fetch, cancelled, decode, flags, prev) ==
              Refresh(Done(Some(Decode(decode(fetch(2).body).reason))), prev)
  {
    SustainedFailure(fetch, cancelled);
  }

  /**
   * The store changes only to the merge of a decoded body against the
   * previous configuration, and the status then carries the loop's error.
   */
  lemma StoreChangesOnlyByMerge(fetch: nat -> FetchResult, cancelled: nat -> bool,
                                decode: string -> DecodeResult, flags: Flags, prev: Config)
    ensures var r := SetConfigSpec(fetch, cancelled, decode, flags, prev);
            var o := FetchLoop(fetch, cancelled);
            r.config != prev ==>
              && o.Fetched? && decode(o.body).Decoded?
              && Resolve(decode(o.body).md, prev, flags) == Merged(r.config)
              && r.status == Done(o.err)
  {
  }

  /**
   * Conversely, a loop that fetched a body which decodes and merges without
   * a panic replaces the store by that merge and returns the loop's error.
   */
  lemma MergeReplacesStore(fetch: nat -> FetchResult, cancelled: nat -> bool,
                           decode: string -> DecodeResult, flags: Flags, prev: Config)
    requires FetchLoop(fetch, cancelled).Fetched?
    requires decode(FetchLoop(fetch, cancelled).body).Decoded?
    requires Resolve(decode(FetchLoop(fetch, cancelled).body).md, prev, flags).Merged?
    ensures SetConfigSpec(fetch, cancelled, decode, flags, prev) ==
              Refresh(Done(FetchLoop(fetch, cancelled).err),
                      Resolve(decode(FetchLoop(fetch, cancelled).body).md, prev, flags).config)
  {
  }

  /** A merge that panics leaves the store unchanged. */
  lemma PanicKeepsStore(fetch: nat -> FetchResult, cancelled: nat -> bool,
                        decode: string -> DecodeResult, flags: Flags, prev: Config)
    requires SetConfigSpec(fetch, cancelled, decode, flags, prev).status == Panic
    ensures SetConfigSpec(fetch, cancelled, decode, flags, prev).config == prev
  {
  }
}
